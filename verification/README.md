# Digital-ocean-bot: verified model of the mutation ledger and its state machines

The bot creates, provisions, replaces and deletes cloud droplets while several workers
run, crash and resume over one PostgreSQL store. This project models the code that decides
those steps and proves what it guarantees over every run. Run `dafny verify dfyconfig.toml`.

## What is modelled

**Creating a droplet** (`provider_errors.dfy`, `create_*.dfy`). Any number of workers run the
region loop of the create step for one deployment. Every SQL statement, every message to the
provider and every creation inside the provider is one event; a worker may crash between any
two of them, a statement may take effect and still be reported as failed, and the provider may
create a droplet and answer with an error, or answer an error first and create it later. A run
is any sequence of events: an event that does not fit the state changes nothing. `Inv` is the
inductive invariant and the theorems speak about all runs; `create_progress.dfy` says how far a
run gets. `create_code.dfy` writes the code itself (loop, executor, adopter, recovery) over a
shared `Site`, with other workers let in between any two statements, and proves that each
execution is such a run. What the outside world answers is a parameter (`Luck`), so that a
contract can say what happens on every answer: which row is stored, whether a request is sent,
what is returned.

**Replacing and deleting** (`lifecycle_*.dfy`). The same construction for droplet rows:
the replacement gate, the compare-and-set engine on stale copies, the delete executor,
recovery of deletes and the orphan reconciler. `lifecycle_progress.dfy` follows one row through
all five states.

**Resumable machines** (`checkpoints.dfy`, `workflow_*.dfy`, `provisioning_*.dfy`). The engine
loops are methods proved equal to a specification function in every world, a world being the
answers of the store, the steps and the clock. The theorems are about any sequence of
serialized runs with failures and crashes anywhere. The two `*_journal.dfy` files say what every
stored row and every call means in terms of the one before it, and how a run ends.

**Timed and arithmetic machines** (`resilience.dfy`, `scheduler_*.dfy`, `sticky_*.dfy`,
`traffic_detector.dfy`, `inventory.dfy`, `keys.dfy`; `error_classes.dfy` and `wrappers.dfy` hold shared types).

## Assumptions

- A create request that the provider turns down with 400 or 422 creates nothing. Where
  `Config.strict` is required (the freeze of the create step), this is assumed of every answer
  that the executor records as failed.
- A failed listing carries neither code nor message, because the client drops the body of such
  a response (internal/providers/digitalocean/client.go:68-70).
- All workers use the same region list: the profile snapshot is attached once
  (internal/workflow/profile_store.go:33-40).
- Droplets that carry a deployment's identity tag were created for it; a success reply carries
  the id of the droplet created; database ids are fresh; created_at order is insertion order.
- READY deployments stay READY; a provider id belongs to one droplet row.
- One scheduler loop runs at a time: it reads and writes `next_build_at` in separate
  statements, which `SchedulerEngine.Tick` takes as one step.
- One pass of the proxy keeper is one atomic step. Other code stores exits between passes: the
  proxy tests (internal/adminapi/proxy_health.go:40, internal/adminapi/proxy_details.go:63) and
  the backfill (internal/adminapi/dashboard.go:118) without a check;
  internal/app/network_identity.go:105-113 and internal/adminapi/network_identity_auto.go:84-89
  with a check in an earlier statement, the latter also when its check fails, and then it is an
  unchecked writer. These are the other steps of `StickyProxy.Step`; a
  proxy test that stores one exit for several accounts is one step per account. The country
  code of a row is that of its exit, also where the writer leaves the country column alone.
- The workflow and provisioning theorems are about serialized runs: the stores bump
  `lock_version` but never compare it (internal/workflow/store.go:29), and the checkpoint of a
  deployment moves forward exactly when no two runs of it are live at once
  (`WorkflowInterleaving.CheckpointAscendsExactlyForOneRun`).
- Floating point numbers are reals, and the square root is an arbitrary function.
- Times are whole numbers; the store's own rounding of times is not modelled.

## Findings

- The region loop is safe only because a failed listing carries neither code nor message
  (internal/providers/digitalocean/client.go:69): otherwise an ambiguous create could look
  like a capacity error to `IsCapacityError` and open a second region
  (`ProviderErrors.ListErrorsNeverAdvance`).
- The comment at internal/app/orphan_reconcile.go:12-13 says that the lifecycle deletes a
  restored row. The delete keeps its idempotency key (internal/droplets/lifecycle_engine.go:42),
  so no second request is ever sent (`LifecycleTheorems.RestoredRowIsNeverDeletedAgain`).
- Recovery freezes rows as FAILED at step `done`; the workflow engine short-circuits on READY
  only. Run on a frozen row it stores READY without calling any further step
  (`WorkflowTheorems.FrozenRowCanTurnReady`); the worker's query is what prevents it.
- A provisioning run whose last write is lost at attempt 8 or more has passed every step and
  can never be COMPLETED (`ProvisioningTheorems.FinishedWorkCanBeLost`); the worker freezes its
  deployment as FAILED (`ProvisioningTheorems.ProvisionFreezeIsExact`).
- The worker executes a deployment at provision also when its query of the run row fails
  (internal/app/recovery.go:93), so a run that FAILED can be retried after all
  (`ProvisioningTheorems.UnreadFailureIsRetried`).
- A deployment whose newest create operation is unknown without a droplet is left alone for
  ever: recovery of operations skips it (internal/app/recovery.go:30) and recovery of
  deployments returns before the adopter could run (internal/app/recovery.go:113-115), also when
  the droplet exists (`CreateTheorems.UnknownIsNeverResolved`).
- `next_build_at` is written without checking the result; the spacing holds exactly when the
  write took effect (`SchedulerEngine.SpacingHoldsExactlyWhenStored`).
- A late `Complete` clears the lease of a later holder (`SchedulerLeases.LateCompletionBreaksExclusion`).
  Two processes hold one schedule exactly when a claim hands it out while a holder has
  outlived its lease (`SchedulerLeases.ExclusiveExactlyWhenPunctual`).
- Exits of accounts are not unique in general: proxy tests store them unchecked, and a checked
  write is not atomic with its check (`StickyProxy.CheckThenWriteRaces`). They stay unique
  exactly when no write outside the keeper's passes hits a subnet taken at that moment
  (`StickyProxy.ExitsStayDistinctExactly`).
- When the repository finds that an account shares its exit (internal/app/repository.go:43-53),
  `stickyConfig` returns an empty configuration (internal/app/sticky_proxy.go:52-61) and the
  keeper returns. So, while some exit is free, the keeper leaves an account with a session alone
  exactly when its exit is shared, and never repairs it (`StickyProxy.SharingIsNeverRepaired`); the code at
  internal/app/sticky_proxy.go:120-135 that means to recover such a configuration is not reached
  from there.
- The failure bound of the circuit breaker holds for all runs exactly when no two calls are in
  flight at once (`Resilience.BoundHoldsExactlyForOneCaller`).

## Model

| member | source | states |
|---|---|---|
| ProviderErrors.AdvancesExactly | internal/providers/digitalocean/errors.go:23-55 | The two tests that let the region loop go on hold together exactly for capacity errors; those are 400 or 422 and are recorded as failed, never as unknown. |
| ProviderErrors.ListErrorsNeverAdvance | internal/providers/digitalocean/client.go:68-70 | No error of a GET request, whatever its status, makes the region loop go on. |
| ProviderErrors.ClassesByStatus | internal/providers/digitalocean/errors.go:38-55 | Which statuses are rate limited (429), retryable (408, 409, from 500 up, and failed requests) and permanent (every other 4xx). |
| ProviderErrors.DefiniteByStatus | internal/droplets/executor.go:66-76 | An error counts as definite if and only if it is a blocked mutation or a 4xx other than 408, 409 and 429. |
| ProviderErrors.CapacityByWords | internal/providers/digitalocean/errors.go:23-36 | A capacity error is a 400 or 422 in whose code or message, in either case, one of the six words occurs as a substring, and nothing else. |
| ProviderErrors.TwoAnswers | internal/providers/digitalocean/errors.go:23-36 | "size is not available in this region" is a capacity error and "name is invalid" is not, with the provider's code. |
| CreateTheorems.CreateKeysAreInjective | internal/workflow/runtime.go:67-82 | Idempotency keys of two deployments or two regions never collide, ids being colon-free. |
| CreateTheorems.ConfigOf | internal/workflow/runtime.go:67-73 | A deployment's configuration has a region list that is not empty and an identity tag, so every theorem about runs applies to it. |
| CreateInvariant.RunInv | internal/droplets/executor.go:29-88 | Every run of any workers, from any state that satisfies the ledger invariant, keeps it. |
| CreateTheorems.AtMostOneDroplet | internal/workflow/runtime.go:76-93 | Over every interleaving, with crashes, lost replies and ambiguous errors, at most one droplet is ever created for a deployment, and at most one request was not rejected. |
| CreateTheorems.LedgerIsAPrefix | internal/workflow/runtime.go:79-92 | The reserved regions are a prefix of the list, each before the last was rejected with a capacity error, and one run reserved them all. |
| CreateTheorems.NoRegionTwice | internal/jobs/store.go:21-42 | No region is reserved twice, even when the list repeats it. |
| CreateTheorems.InsertedOnce | internal/jobs/store.go:30-41 | Over every run, one statement at most inserts the row of a key, so one caller at most is told that it is new. |
| CreateTheorems.ResourceNamesTheDroplet | internal/droplets/executor.go:78-87 | A ledger row with a resource names the one droplet created, and that was created in the row's region. |
| CreateTheorems.ResourceIsWriteOnce | internal/droplets/reconcile.go:42-73 | Once a row names a resource, no later executor, adopter, verifier or recovery step changes it. |
| CreateTheorems.SuccessfulRunsAgree | internal/workflow/runtime.go:83-94 | All create steps that succeed, of whatever worker, return the same droplet. |
| CreateTheorems.FreezeIsExact | internal/app/recovery.go:104-112 | When the newest operation failed without resource, no droplet exists or will ever exist, if and only if no live run is about to reserve another region. |
| CreateTheorems.FrozenOwnsNothing | internal/app/recovery.go:108-112 | A deployment frozen at create with no live run never owns a droplet, whatever runs later. |
| CreateTheorems.UnknownIsNeverResolved | internal/app/recovery.go:113-115 | With no live run and the worker's guards, a deployment whose newest create operation is unknown without a droplet never gets its ledger changed or a request sent again, even when the provider creates the droplet. |
| CreateProgress.CapacityIsFinal | internal/workflow/runtime.go:79-92 | Over every run: the regions that a worker asks the store for are those of the list, in order; when it returns an error for want of capacity it has tried every region of the list. |
| CreateProgress.AnswerDecides | internal/workflow/runtime.go:83-91 | From every run in which a worker awaits an answer: after an error it goes on to the next region if there is one and the error is a 400 or 422 with one of the words, and otherwise returns that error, whatever others do and whether or not the row could be stored. |
| CreateProgress.TwoRegions | internal/workflow/runtime.go:79-94 | The concrete runs: with nyc1 and sfo3, missing size in nyc1 leads to the insert of sfo3, where a droplet is created, stored and returned; a bad name ends the run. |
| CreateCode.Site.Reserve | internal/jobs/store.go:21-51 | On every answer of the store: the row is new exactly for the caller whose acknowledged statement inserted it (planned, no resource, attempt 0), and nothing else changed; with the row already there the caller gets it as stored, or an error. |
| CreateCode.Site.Update | internal/jobs/store.go:53-63 | The latest step stores exactly the caller's row, which exists, unless the store refuses; nothing else changes, and an error is returned exactly without an acknowledgement. |
| CreateCode.UniqueMatch | internal/droplets/reconcile.go:50-66 | The scan finds a droplet exactly when one and only one listed droplet carries the tag (or, without a tag, the name) in the region, and returns that one. |
| CreateCode.AdoptUnknownCreate | internal/droplets/reconcile.go:42-73 | On every listing: a failed one is returned as the error; any number of matches but one is an unknown outcome; both store nothing. The only match is stored as the resource, in state verifying, and the error is that of the write. |
| CreateCode.ExecutorCreate | internal/droplets/executor.go:29-88 | On every answer of the world: a closed gate ends the attempt before anything is stored; a row of another is returned as read, or adopted when unknown without resource; a request is sent exactly for a new row with the egress as expected and the running row stored; and the loop then stands where the error or the row demands. |
| CreateCode.CallProvider | internal/droplets/executor.go:57-88 | What the run that inserted the row stores and returns: failed exactly for a blocked mutation or a 4xx other than 408, 409 and 429, unknown for every other error of the provider, verifying with the created id on success, unknown with the id when the egress changed; without the running row stored, no request. |
| CreateCode.Create | internal/workflow/runtime.go:63-95 | The loop, started now and run among any other workers, returns a droplet exactly when it returns no error, and that droplet is the only one created; an error for want of capacity is returned only when every region of the list was tried, in order. |
| CreateCode.SeenAlive | internal/app/recovery.go:36-61 | A fresh snapshot decides whether the droplet exists, and only without one the live answer does. |
| CreateCode.RecoverCreate | internal/app/recovery.go:17-71 | Recovery keeps the name and stores succeeded if the snapshot or, without one, the provider shows exactly the droplet that the row named, and unknown if not. |
| CreateCode.VerifyCreate | internal/droplets/reconcile.go:23-40 | Only verifying and unknown rows are compared; a listed droplet makes the row read succeeded, stored as such, and every other case returns its error and stores nothing; others run in between. |
| LifecycleInvariant.HistoryInv | internal/droplets/lifecycle_engine.go:20-59 | Every history of lifecycle, recovery, orphan and deployment steps keeps the row, operation and worker invariants. |
| LifecycleTheorems.MakeBeforeBreak | internal/app/lifecycle.go:12-47 | Every row that reached RETIRING had a replacement started for it that was READY, and no deployment replaces two rows. |
| LifecycleTheorems.RetiringNeedsReadyReplacement | internal/app/lifecycle.go:41-47 | At the step EXPIRING to RETIRING the row's own replacement column names a deployment READY at that moment, however stale the worker's copy is. |
| LifecycleTheorems.RowsMoveForward | internal/droplets/lifecycle.go:42-49 | Rows move one state forward at a time; the only backward edge is DELETED to RETIRING by the orphan reconciler. |
| LifecycleTheorems.AtMostOneDelete | internal/droplets/executor.go:90-127 | At most one provider delete is ever sent for a row, and only after it reached RETIRING. |
| LifecycleTheorems.DeletedWasSeenAbsent | internal/app/recovery.go:62-75 | A DELETED row was deleted by request, and a delete operation for its droplet saw it absent. |
| LifecycleTheorems.RestoredRowIsNeverDeletedAgain | internal/app/orphan_reconcile.go:53-59 | Once a row is DELETING or DELETED, restoring it never leads to another delete request. |
| LifecycleProgress.WholeLife | internal/droplets/lifecycle_engine.go:20-59 | One history takes a row through READY, EXPIRING, RETIRING, DELETING and DELETED: the replacement is started, attached and ready, one request is sent, accepted and stored, and the droplet is seen gone. |
| LifecycleCode.Move | internal/droplets/lifecycle.go:42-49 | The row moves to the new state exactly when it is still in the copy's state and the store does not refuse; nothing else changes; success is reported exactly when it moved and that was acknowledged. |
| LifecycleCode.ReserveDelete | internal/jobs/store.go:21-51 | The operation is new exactly for the worker whose acknowledged statement inserted it; the others get the stored one, or an error. |
| LifecycleCode.ExecutorDelete | internal/droplets/executor.go:90-127 | On every answer of the world: a request is sent exactly behind an open gate for a new operation with the egress as expected and the running operation stored; the stored outcome is unknown without resource when the request failed, verifying with the droplet when it was accepted, unknown with it when the egress changed; the operation of another is returned as stored. |
| LifecycleCode.DeleteDroplet | internal/droplets/executor.go:112-127 | Exactly one request is sent, and the operation is stored last: unknown when it failed, otherwise with the droplet's id, verifying or, when the egress changed, unknown with an error. |
| LifecycleCode.Process | internal/droplets/lifecycle_engine.go:20-59 | A READY copy makes the compare-and-set to EXPIRING, an EXPIRING one that to RETIRING, a RETIRING one that to DELETING exactly when its delete is verifying or succeeded; other copies do nothing; only a RETIRING copy sends a request. |
| LifecycleCode.ProcessLifecycle | internal/app/lifecycle.go:11-67 | On every answer: a replacement is started exactly for an EXPIRING copy with profile and without one, with a snapshot of at most two minutes that shows room, and is attached where none was; with a replacement the row goes on exactly when that is READY; afterwards every row beyond EXPIRING has its own READY replacement. |
| LifecycleCode.RecoverDelete | internal/app/recovery.go:62-75 | Recovery stores succeeded when the droplet is gone and unknown otherwise; when it is gone and that was stored, a DELETING row becomes DELETED; no DELETED row exists that was not seen absent. |
| LifecycleCode.RestoreOrphan | internal/app/orphan_reconcile.go:29-61 | With others between its reads and its update: a restored row was owned, of a FAILED deployment and still DELETED; a row that is not restored although owned and FAILED was not DELETED all the time; no later history deletes it again. |
| Checkpoints.CleanSnoc | internal/workflow/engine.go:45-67 | A log stays gap-free when a step is called at its checkpoint and a row is stored one further only right after that step passed. |
| Checkpoints.NoCallBehindACheckpoint | internal/workflow/engine.go:46-48 | In such a log no step is called once a checkpoint beyond it is stored. |
| Checkpoints.CheckpointsWerePassed | internal/workflow/engine.go:56-66 | The steps before the highest checkpoint each have exactly one passing call whose checkpoint was stored at once, and these calls come in the order of the steps. |
| Checkpoints.PassedExactlyBelow | internal/workflow/engine.go:78-86 | The first n steps have passed in order if and only if the highest checkpoint has reached n. |
| WorkflowEngine.Store.Update | internal/workflow/store.go:28-31 | An update replaces the whole row without comparing versions. |
| WorkflowEngine.Run | internal/workflow/engine.go:28-76 | The seven-step loop has the effects, the result and the error of the specification in every world. |
| WorkflowTheorems.CheckpointNeverDecreases | internal/workflow/engine.go:63-66 | Over any serialized runs, failures, crashes and freezes, the checkpoint never moves back. |
| WorkflowTheorems.ResumeRefinesACleanRun | internal/workflow/engine.go:45-67 | The steps checkpointed over all runs are create, wait_resource and so on, without a gap, up to the stored checkpoint, and each passed exactly once, in order. |
| WorkflowTheorems.NoStepAfterItsCheckpoint | internal/workflow/engine.go:78-86 | A step is never called again once its checkpoint is stored. |
| WorkflowTheorems.ReadyAfterAllSeven | internal/workflow/engine.go:68-75 | READY means that each of the seven steps has a passing, checkpointed call, in order, and from then on a run changes and calls nothing. |
| WorkflowTheorems.AttemptsCoverCalls | internal/workflow/engine.go:51-56 | Step calls never outnumber the stored attempts. |
| WorkflowTheorems.ReadyIsHonestExactlyWhenNotFrozen | internal/workflow/engine.go:37-39 | A READY stored by a direct run is backed by passing calls of all seven steps in order if and only if the row was not frozen. |
| WorkflowTheorems.FrozenRowCanTurnReady | internal/app/recovery.go:104-112 | The concrete history: the create step fails, recovery freezes the row, and a direct run stores READY without a further call. |
| WorkflowJournal.HistoriesAreJournals | internal/workflow/engine.go:45-75 | Over any serialized runs: a call is handed the row stored just before it, which enters the state of the step and counts an attempt; every stored row is such a beginning, or keeps the answer of the call just before (both ids, and its message or the next step), or is the end. |
| WorkflowJournal.IdsAreKept | internal/workflow/engine.go:55-66 | Over any serialized runs the stored row, and the input of every call, carries the droplet and provider id of the last answer whose row was stored. |
| WorkflowJournal.SucceedsExactly | internal/workflow/engine.go:28-76 | A run of an unfinished deployment returns no error if and only if every remaining step is begun, passed and stored and the last row is stored; it is then READY, done and without error. |
| WorkflowJournal.FailureEndsTheRun | internal/workflow/engine.go:52-66 | When the first remaining step fails, the run ends there with that error, and the row is the one before, the begun one, or the one that keeps the answer, according to what the store took. |
| WorkflowJournal.TurnsExactly | internal/app/recovery.go:79-125 | After any history, the worker runs exactly deployments that are neither READY nor FAILED, and the freeze changes exactly those at the create and provision steps. |
| WorkflowInterleaving.CheckpointAscendsExactlyForOneRun | internal/workflow/store.go:28-31 | With every store statement an event of its own, the stored checkpoint never moves back over all runs if and only if no two runs of the deployment are live at once. |
| WorkflowInterleaving.TwoRunsMoveBack | internal/workflow/engine.go:52-62 | The concrete run: one run passes the create step while another is inside it, and the failure of the other stores the old checkpoint. |
| WorkflowInterleaving.LoneRunIsTheEngine | internal/workflow/engine.go:45-75 | The events of a run that is left alone store what the engine's loop stores. |
| ProvisioningEngine.Store.Reserve | internal/provisioning/store.go:17-29 | The row is inserted once; every later execution reads what is stored. |
| ProvisioningEngine.Execute | internal/provisioning/engine.go:30-103 | Plan check, deferral, attempt cap, loop and backoff have the effects, the result and the error of the specification in every world. |
| ProvisioningTheorems.BoundedWork | internal/provisioning/engine.go:44-52 | SSH actions never outnumber the stored attempts, which never exceed 11, over all executions and crashes. |
| ProvisioningTheorems.ElevenActionsArePossible | internal/provisioning/engine.go:44-72 | The bound is tight: seven workers that die during the probe and one clean execution reach it. |
| ProvisioningTheorems.CompletedAfterAllFour | internal/provisioning/engine.go:93-102 | COMPLETED means that ssh, bootstrap, panel and verify each have a passing, checkpointed call, in that order; at any time the same holds of the steps before the stored one. |
| ProvisioningTheorems.BackoffIsRespected | internal/provisioning/engine.go:78-89 | After a failure recorded at attempt n and time t no execution issues an SSH action before t + 2^min(n,6) minutes. |
| ProvisioningTheorems.StepNeverMovesBack | internal/provisioning/engine.go:115-118 | The stored step never moves back and no step is repeated behind its checkpoint. |
| ProvisioningTheorems.ExhaustedForEver | internal/provisioning/engine.go:45-52 | A row at the attempt cap that is not COMPLETED never becomes so, and no further SSH action is issued. |
| ProvisioningTheorems.FinishedWorkCompletesExactlyBelowTheCap | internal/provisioning/engine.go:45-102 | With passing calls of all four steps and the last write lost, the next execution completes the row if and only if fewer than eight attempts were used. |
| ProvisioningTheorems.FinishedWorkCanBeLost | internal/provisioning/engine.go:100-102 | A concrete history with passing calls of all four steps, in order, after which the row can never be COMPLETED. |
| ProvisioningTheorems.ProvisionFreezeIsExact | internal/app/recovery.go:88-98 | When the provision freeze strikes, a step still lacks its passing call if and only if the stored step is not done. |
| ProvisioningTheorems.FailedRunsAreNotRetried | internal/app/recovery.go:93-97 | Under a worker that can read the failed run, no SSH action ever follows a stored FAILED. |
| ProvisioningTheorems.UnreadFailureIsRetried | internal/app/recovery.go:93-102 | A visit whose query fails does issue a further SSH action for a run that FAILED below the attempt cap, once its backoff is over. |
| ProvisioningJournal.HistoriesAreJournals | internal/provisioning/engine.go:62-102 | Over all executions: an SSH action follows the row that begins its step and runs the command that a plan has for that step; every stored row is a new one, such a beginning, what is kept of the action just before, the end, or the row given up at eight attempts. |
| ProvisioningJournal.FailuresAreTold | internal/provisioning/engine.go:78-90 | Over all executions: a row stored with a failure comes right after the action that failed; an error leaves it FAILED, an interruption in the state of the step called, both due again after 2, 4, 8, 16, 32 and then 64 minutes. |
| ProvisioningJournal.FailedBelowTheCap | internal/provisioning/engine.go:83-88 | Over all executions: below eight attempts a row is stored FAILED only right after an action that answered with an error, never after an interruption. |
| ProvisioningJournal.SucceedsExactly | internal/provisioning/engine.go:30-103 | An execution of an open or new row succeeds if and only if every remaining step is begun, passed and stored and the last row is stored; the row is then COMPLETED. |
| ProvisioningJournal.FailureEndsTheExecution | internal/provisioning/engine.go:66-99 | When the first remaining step fails, the execution ends there, and the row tells of exactly that failure, according to what the store took. |
| ProvisioningJournal.VisitsExactly | internal/app/recovery.go:88-103 | After any visits, the worker executes the run unless it reads that it FAILED or used up eight attempts. |
| TrafficDetector.Wrap | internal/trafficguard/model.go:20 | Byte totals wrap in two's complement. |
| TrafficDetector.UpdateBaseline | internal/trafficguard/detector.go:51-66 | Statistics take one learning step, or stay as they are when nothing is to be learned. |
| TrafficDetector.Analyze | internal/trafficguard/detector.go:8-49 | The code makes the decision and leaves the baseline about which the trace theorems speak. |
| TrafficDetector.WithDefaults | internal/trafficguard/detector.go:9-20 | Limits that are missing or senseless become 0.2, 5, 4 and 3; everything else stays. |
| TrafficDetector.SkippedExactly | internal/trafficguard/detector.go:21-29 | Exactly samples without elapsed time or with fewer bytes than before are skipped, with their reason and no effect; otherwise rate times elapsed time is the bytes counted. |
| TrafficDetector.SuspiciousExactly | internal/trafficguard/detector.go:30-40 | After any trace: a rate at a positive hard rate is suspicious; with enough samples so is one at both the minimum and mean plus sigma deviations, and short of the hard rate one below either is not; with too few samples the minimum alone decides. |
| TrafficDetector.JudgedExactly | internal/trafficguard/detector.go:41-48 | After any trace: a suspicious rate is counted and not learned, any other ends the count and is learned; confirmation comes at the policy's count; the reason says which. |
| TrafficDetector.BaselineDescribesUnsuspiciousRates | internal/trafficguard/detector.go:51-66 | After any trace, mean and variance + mean^2 are the exponential averages of the unsuspicious rates and of their squares. |
| TrafficDetector.AnomaliesLeaveNoTrace | internal/trafficguard/detector.go:21-47 | Without the suspicious and skipped samples the learned baseline would be the same, and nothing would be suspicious. |
| TrafficDetector.ConfirmedExactlyAfterARun | internal/trafficguard/detector.go:41-48 | A judged sample is confirmed if and only if the run of suspicious samples ending with it is as long as the policy asks. |
| TrafficDetector.VarianceIsBounded | internal/trafficguard/detector.go:59-61 | With rates in [0,M]: 0 <= mean <= M and 0 <= variance <= mean*(M-mean) <= M^2/4. |
| Resilience.Circuit.Allow | internal/resilience/circuit.go:27-41 | Only an open circuit turns calls away, and exactly until its open duration has passed; the call let through then finds it half open. |
| Resilience.Circuit.Failure | internal/resilience/circuit.go:49-61 | A failure is counted, and opens the circuit at the threshold (five by default) or from half open. |
| Resilience.Delay | internal/resilience/policy.go:16-35 | The doubling loop gives the capped doubling that the closed form describes. |
| Resilience.DelayInClosedForm | internal/resilience/policy.go:16-35 | The delay of attempt n is min(cap, base * 2^(n-1)), or the base above the cap, with one and thirty seconds as defaults. |
| Resilience.DefaultDelays | internal/resilience/policy.go:13-15 | The default policy waits 1, 2, 4, 8, 16 and then 30 seconds, tries five times, and opens for a minute after five failures. |
| Resilience.TurnedAwayExactly | internal/resilience/circuit.go:27-41 | After any history an attempt is turned away if and only if the circuit is open and its open duration is not over, and then nothing changes. |
| Resilience.CallsCount | internal/resilience/circuit.go:42-61 | After any history a call that comes when the open duration is over is let through: success closes the circuit and forgets the failures, a permanent error leaves them, any other counts one more and opens exactly at the threshold. |
| Resilience.FailuresAreRationed | internal/resilience/circuit.go:27-61 | For one caller the circuit is open or half open if and only if failures reached the threshold, and beyond it there is at most one failure per open duration since the last success. |
| Resilience.TwoCallersExceedTheBound | internal/resilience/circuit.go:27-61 | Under every policy with a positive open duration two callers exceed the bound: one failure short of the threshold both are let through and both fail. |
| Resilience.BoundHoldsExactlyForOneCaller | internal/resilience/circuit.go:27-61 | The failure bound holds over all runs if and only if no two calls are ever in flight at once. |
| Resilience.Do | internal/resilience/retry.go:15-54 | With or without a circuit, the retrier makes at most the policy's attempts, each after the delay of its number, all but the last let through and failing transiently, and its result tells how the last one ended. |
| Resilience.RetriesAreRationed | internal/resilience/retry.go:20-52 | A retrier leaves the circuit within the failure bound it found it in. |
| SchedulerLeases.LeaseStore.ClaimDue | internal/scheduler/lease.go:11-52 | At most 100 rows unless a limit is given; exactly the answered rows are leased, for one minute unless a lease is given, and returned as read; a failed commit changes nothing, a lost reply returns nothing. |
| SchedulerLeases.LeaseStore.Complete | internal/scheduler/lease.go:53-56 | Completion stores the pass as last run, moves the next one an interval on and clears the lease, whoever holds it. |
| SchedulerLeases.AtMostOneHolder | internal/scheduler/lease.go:23-56 | When holders finish or crash before their schedule is taken over, no schedule ever has two holders and each row shows its holder's lease. |
| SchedulerLeases.ExclusiveExactlyWhenPunctual | internal/scheduler/lease.go:23-56 | No schedule ever has two holders if and only if no claim hands one out while a holder has outlived its lease. |
| SchedulerLeases.ClaimsAreALeaseApart | internal/scheduler/lease.go:23-48 | Two claims of one schedule with no completion between them are more than one lease apart, with no assumption. |
| SchedulerLeases.CompletedIsDueAgain | internal/scheduler/lease.go:23-56 | After any history a completed schedule is due again if and only if it is enabled and one interval has passed since the pass. |
| SchedulerLeases.ClaimedIsDueLater | internal/scheduler/lease.go:23-48 | After any history a claimed schedule was due, and is due again if and only if the lease has run out. |
| SchedulerLeases.LateCompletionBreaksExclusion | internal/scheduler/lease.go:53-56 | A completion after the lease ran out, with the time of its own pass, lets two holders work on one schedule. |
| SchedulerEngine.Engine.Consider | internal/scheduler/engine.go:30-100 | One item starts one deployment exactly when the account is ready, its snapshot at most two minutes old, a deployment needed, a droplet free and the spacing over, and the start succeeds; the next one is put off by a spacing within the configured bounds. |
| SchedulerEngine.Engine.RunDue | internal/scheduler/engine.go:21-104 | Every claimed item is considered once, in order, by that rule, and is next due one interval after the pass, with no lease. |
| SchedulerEngine.StartsExactly | internal/scheduler/engine.go:30-100 | After any passes one more item starts a deployment if and only if every gate is open and the start succeeds. |
| SchedulerEngine.StartsAreSpaced | internal/scheduler/engine.go:71-99 | Consecutive starts of an account are at least the drawn spacing apart if the write took effect, whatever schedules they come from; each had a need, a free slot and a fresh snapshot. |
| SchedulerEngine.StartsSpan | internal/scheduler/engine.go:88-99 | k starts of one account span at least (k-1) spacings. |
| SchedulerEngine.SpacingHoldsExactlyWhenStored | internal/scheduler/engine.go:98-98 | Every possible next start keeps the spacing if and only if next_build_at was stored. |
| StickyProxy.Identities.FindCollision | internal/app/sticky_proxy.go:326-330 | A collision is reported exactly when another account exits through the same subnet. |
| StickyProxy.Identities.MaintainStickyIdentity | internal/app/sticky_proxy.go:82-350 | One pass of the code takes the step about which the histories speak, in every world. |
| StickyLaws.PassesExactly | internal/app/sticky_proxy.go:82-350 | After any history: what a pass does to the rows. A healthy exit ends a recovery; a healthy fallback returns to the preferred country exactly when that offers a free exit; a lost exit opens a recovery and is replaced exactly by a free one in the preferred country, or anywhere on fallback or after five minutes; a generic pool takes every free exit and owns no session state; a shared exit or an account without a proxy is left alone. |
| StickyLaws.SubnetsExactly | internal/app/sticky_proxy.go:189-193 | Two v4 addresses share a subnet if and only if their first three octets agree, two v6 addresses if and only if their first 48 bits do, and one of each never. |
| StickyLaws.CodesIgnoreCase | internal/app/sticky_proxy.go:277-277 | Country codes are compared without regard to case. |
| StickyProxy.SubnetsStayDistinct | internal/app/sticky_proxy.go:325-337 | No two accounts exit through one subnet (/24 for v4, /48 for v6) or address, whatever passes run and as long as no other write clashes when it is stored. |
| StickyProxy.InstallIsDistinctExactly | internal/app/sticky_proxy.go:326-337 | An install that takes effect keeps exits distinct if and only if no other account has its subnet at that moment. |
| StickyProxy.ExitsStayDistinctExactly | internal/adminapi/proxy_health.go:40-40 | Over any mix of keeper passes, unchecked writes, backfills and writes checked earlier, exits stay distinct if and only if no such write stores a subnet that is taken at that moment. |
| StickyProxy.CheckedWriteClashesExactlyWhenOvertaken | internal/app/network_identity.go:104-113 | A checked write clashes if and only if another account moved into its subnet between the check and the write. |
| StickyProxy.SharingIsNeverRepaired | internal/app/repository.go:43-53 | No pass changes anything of an account whose exit is shared with another account that must use a proxy; while some exit is free, that is so of an account with a session if and only if its exit is shared. |
| StickyProxy.Identities.SharesExit | internal/app/repository.go:43-53 | The repository's test reports exactly the exits shared with an account that must use a proxy. |
| StickyProxy.Identities.UpsertExit | internal/adminapi/proxy_health.go:40-40 | The exit is replaced or inserted unchecked; session, preference, fallback and recovery of the row stay. |
| StickyProxy.Identities.BackfillExit | internal/adminapi/dashboard.go:118-118 | Only a missing row is inserted. |
| StickyProxy.FallbackNeedsFiveMinutes | internal/app/sticky_proxy.go:297-302 | Fallback is switched on only after recovery was open for five minutes with no healthy check, accepted identity or reset in between, whoever else writes exits. |
| StickyProxy.AtHomeUnlessOnFallback | internal/app/sticky_proxy.go:321-339 | With a fixed preferred country, an account that is not on fallback exits in that country, as long as no other writer gives it an exit elsewhere. |
| StickyProxy.AtHomeExactly | internal/app/sticky_proxy.go:321-339 | It does so at all times if and only if no other writer gives it, while it is not on fallback, an exit in another country. |
| StickyProxy.CheckThenWriteRaces | internal/app/network_identity.go:104-113 | Two writers that check before either writes store one subnet twice. |
| Inventory.KeyIsInjective | internal/resources/reconcile.go:38-40 | Keys tell resources apart exactly like the unique index when provider, account and type hold no colon. |
| Inventory.ColonsCollide | internal/resources/reconcile.go:38-40 | With a colon in another field two resources can share a key. |
| Inventory.Compare | internal/resources/reconcile.go:10-36 | The output holds every difference once and nothing else. |
| Inventory.LastWins | internal/resources/reconcile.go:13-18 | Of several resources with one key the last is compared. |
| Inventory.PatchingGivesTheRemote | internal/resources/reconcile.go:10-36 | Patching the local states with the differences, in any order they come out, gives the remote states. |
| Inventory.Registry.Sync | internal/resources/postgres.go:11-20 | A foreign item or a failing statement rolls everything back; otherwise each listed row takes the state and metadata of its last item, its other columns stay or come from its first item, and all other rows stay. |
| Inventory.UpsertedExactly | internal/resources/postgres.go:13-18 | The upserts, one by one, have that effect on the row of every identity. |
| Inventory.Registry.Find | internal/resources/postgres.go:22-27 | Find returns the rows of the account, all of them, none twice. |
| Inventory.SyncLeavesOnlyMissing | internal/resources/postgres.go:11-20 | After a sync, comparing with the same list reports only missing resources, exactly those missing before. |

## Left out

- HTTP handlers, dashboard, auth, web UI, login limiter: request plumbing.
- SSH, SCP, SQLite templates, the panel API: every such action is an answer of the world.
- Secrets, UUIDs, key generation: ids are fresh and otherwise opaque.
- `HealthState`, `AccountGate`, `Plan`, `waitDelay`: one-branch helpers.
- Liveness: no member says that a deployment becomes READY or that a delete ends. An
  operation whose last write is lost stays running, and a delete that errored has no resource
  and is skipped by recovery.
- `RuntimeSteps.WaitResource` and the other step functions: the engine sees them as answers
  that may change the droplet and provider ids; the row insert appears as `Register`.
- Total number of servers: the scheduler's `needed` misses a deployment that has a provider
  id but no droplet row (internal/scheduler/engine.go:63-64), so no bound on it is stated.
- SchedulerEngine.StartsSpan: account edits, which reset next_build_at, are not modelled.
- Resilience.Do: overflow of a doubled delay is not modelled.
- WorkflowTheorems.CheckpointNeverDecreases: stated for serialized runs, because it is false of
  any two that are live at once.
- StickyProxy.Identities.MaintainStickyIdentity: one pass is one atomic step; time zone, locale
  and the audit queue are not modelled.
- Wipe of secrets, lifecycle events, deployment events and runtime status texts.
