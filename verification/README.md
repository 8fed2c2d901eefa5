# Verification of Home Center's device-management lifecycle and planners

This project models, in Dafny 4.11, two parts of Home Center's control plane and proves properties of
the model.  `dafny verify dfyconfig.toml` checks all of it.

**The device-management lifecycle.**  Enrollment execution (start, retry, cancel), post-condition
verification with the managed-state apply, de-enrollment with reconciliation, failed-enrollment cleanup
and provider selection all keep their progress in one durable store of envelopes and jobs, and command
an external provider that must not be asked twice.  A process can die between any two durable effects.

- `Records` holds the durable records.  A digest is modelled by the value it is taken of; other
  identifiers are compared only and are numbers.
- `Protocol` is the lifecycle as a state machine: an action is one durable effect or one command that
  has left for the provider, `Enabled` says when it may happen, and a run is a sequence of actions from
  a freshly bootstrapped Household.  `Db.log` is the history of all actions; no operation reads it.
- `Scripts` and `DurableStore` give every operation a *script*, its effects and its outcome as a
  function of the stored state, and model death: a process with n effects left does the first n
  effects of the script.  The store's `Valid()` says that the stored state is the outcome of a run.
- `EnrollmentRuntime`, `PostConditionRuntime`, `DeenrollmentRuntime` and `CleanupRuntime` are the
  operations as methods that change the store effect by effect.  Each is proved to follow its script,
  up to death at any point, and every effect is proved to be enabled, so whatever sequence of calls,
  callers, keys, provider answers and deaths happens, the result is a run.
- `EnrollmentSafety`, `HouseholdSafety`, `PostConditionSafety`, `DeenrollmentSafety` and `CleanupSafety`
  prove what holds along every run; the `...Recovery` modules prove what a repeated request or a
  restarted process does after a death at each point.
- `Judgements` says what the small judgements on actors, devices and provider answers mean, and
  `EnrollmentAnswers`, `PostConditionAnswers`, `DeenrollmentAnswers` and `CleanupAnswers` prove of every
  operation exactly when it commands or reads the provider, how it ends and why it is refused, said of
  the request, the stored records and the answers alone.  `JobKeys` is what they need of idempotency keys.
- `Lifecycle` puts them together: any sequence of requests to any of the operations, each served by a
  process that may die, keeps all of the safety properties.  `Aftermath` proves what no later request
  changes, and `Scenarios` and `Rivals` play the short histories that the findings below speak of.
- `ProviderSelection` is the same in small, for the choice of a provider.
- `EnrollmentPlan` is the plan of an enrollment as a stored document: its normal form, the parser that
  accepts exactly the printed form, and revalidation.

**Self-contained algorithms.**  `RunbookPlanner` (Kahn's algorithm with a least-first heap),
`AutomationExecution` (the runbook plan on top of it), `DeploymentPlanner` (greedy matching),
`RateLimiter` (sliding windows), `ParameterTree` (worklist over a possibly cyclic container graph),
`AuditChain` (hash chain) and `PublicProvenance` (manifest text and order).  `Sorting` and `Strings` hold
what they share.

**Findings.**  Where the code does less than one might expect, the model keeps the code and the exact
condition is proved:

- Of two pending verifications that were planned over the same Household for different devices, recovery
  applies the first in key order; the other is left pending (`PostConditionRecovery.FirstInKeyOrderWins`;
  the exact condition is `RecoveryApplies`).  Process deaths alone do not lead there, because
  `runtime.py` recovers before it serves: the history `Rivals.LeaveRivals` needs two confirmations that
  a store exception abandons behind their stored expectation while the process lives on.
- A de-enrollment plan that is confirmed again while it holds a stored expectation keeps it, and its
  next execution does not mark the envelope as pending.  A crash behind the Household write then
  leaves an envelope that no later request moves (`DeenrollmentRecovery.ReconfirmKeepsExpectation`,
  `LeftoverExpectationSticks`, `Aftermath.StuckForEver`; one history is `Scenarios.LeaveLeftover`).
- Reconciliation stores `verified-pending-apply` once before the expectation; after a crash in between
  it refuses the envelope (`DeenrollmentRecovery.ReconciliationAfterCrash`; one history is
  `Scenarios.LeaveUnexpected`).
- With two verifications of one execution, cleaning up after one strands the reference's copy in the
  other for ever (`CleanupSafety.StrandedExactly`, `StrandedForEver`, `CleanupRecovery.StrandedRefused`;
  one history is `Scenarios.StrandCopy`).
- A start that dies after its job succeeded and before its receipt is stored is refused when it is sent
  again (`EnrollmentRecovery.StartAfterCrash`, fifth effect), and no start command is sent for the plan
  any more (`EnrollmentSafety.NoStartAfterSettled`).  One that dies while its job is running blocks the
  plan, even if the adapter had declared a safe failure (`Aftermath.BlockedForEver`).

**Assumptions.** Operations are taken one after another, as the runtimes' locks intend; between two
effects of one operation nothing else happens, and an operation may end behind any of its effects. That
is a process death or, when no recovery follows, an exception of the store that abandons the operation
while the process lives on; recovery at a process start is an arrival of its own. `created_at` never
decreases, so "newest first" is the reverse order of creation. Clocks, provider answers, adapters,
step-up tokens and the currency of upstream records are parameters of each call. Other writers of the
Household keep the managed flag of the devices they keep, register new devices unmanaged
(`Protocol.KeepsManaged`) and store the actor bindings they have read, as `household_device_change.py`,
`household_device_runtime.py` and `household_runtime.py` do. The limiters take time as exact reals,
where the source has the floating-point `time.monotonic()`, and a client's key as the pair of its proxy
and its address, where the source formats both into one string.

## Model

| member | source | states |
|---|---|---|
| `DurableStore.Store.CreateActionJob` | product/control-plane/src/home_center/store.py:505-569 | returns the stored job for the same action, actor and idempotency key, refuses a different request under that key, and otherwise creates exactly one job in `preflight` - or dies and changes nothing |
| `DurableStore.Store.TransitionActionJob` | product/control-plane/src/home_center/store.py:571-625 | a compare-and-swap on the job state along the permitted edges; a job in another state is refused and nothing changes |
| `DurableStore.FindKey` | product/control-plane/src/home_center/store.py:517-525 | finds a job exactly when one with this action, actor and key exists |
| `DurableStore.Store.Commit` | product/control-plane/src/home_center/store.py:209-217 | one durable effect happens whole or not at all, and every stored state stays the outcome of a run of the protocol |
| `EnrollmentSafety.AtMostOneUnsafeStart` | product/control-plane/src/home_center/device_management_enrollment_execution_recovery.py:151-214 | in every run, of any two start commands sent for one plan the earlier was answered by a failure the adapter declared safe |
| `EnrollmentSafety.NoStartAfterSettled` | product/control-plane/src/home_center/device_management_enrollment_execution_runtime_safe.py:129-171 | from the moment an attempt has been called without a declared safe failure, failed unsafely, is verifying or succeeded, no later action of the run is a start command for the plan; an attempt whose process died unrecorded is `Aftermath.BlockedForEver` |
| `Aftermath.BlockedForEver` | product/control-plane/src/home_center/device_management_enrollment_execution_runtime_safe.py:129-171 | after a start or retry died while its job was running, whatever its answer was, no sequence of later requests moves the job or sends a start command for the plan |
| `EnrollmentSafety.AtMostOneCancel` | product/control-plane/src/home_center/device_management_enrollment_execution_recovery.py:318-353 | in every run no two cancel commands belong to one plan |
| `EnrollmentSafety.CancelFollowsAcceptance` | product/control-plane/src/home_center/device_management_enrollment_execution_runtime.py:310-357 | when a cancel command is sent, the start receipt of its plan is stored, its start job has succeeded, and the command names that receipt's operation |
| `EnrollmentSafety.CancelReceiptStays` | product/control-plane/src/home_center/device_management_enrollment_execution_runtime.py:349-357 | a stored cancel receipt is never changed or removed later in the run |
| `EnrollmentSafety.NoReadBackAfterCancel` | product/control-plane/src/home_center/device_management_enrollment_post_condition_runtime.py:154-166 | after a cancel receipt is stored, no provider read-back of the run is for that execution |
| `EnrollmentSafety.Holds` | product/control-plane/src/home_center/device_management_enrollment_execution_recovery.py:151-353 | the invariant over start, retry and cancel jobs, commands and receipts holds in every state of every run |
| `EnrollmentRuntime.StartJobs` | product/control-plane/src/home_center/device_management_enrollment_execution_runtime_safe.py:91-114 | lists exactly the start and retry jobs of the plan, newest first |
| `EnrollmentRuntime.CancelJobs` | product/control-plane/src/home_center/device_management_enrollment_execution_runtime_safe.py:91-114 | lists exactly the cancel jobs of the plan, newest first |
| `EnrollmentRuntime.Runtime.PlanExecution` | product/control-plane/src/home_center/device_management_enrollment_execution_runtime.py:197-220 | stores a plan once; an id that is taken must hold the same plan |
| `EnrollmentRuntime.Runtime.Start` | product/control-plane/src/home_center/device_management_enrollment_execution_recovery.py:151-179 | does the effects its script prescribes from the stored state, or a prefix of them and dies; each effect is a protocol step, so the run theorems apply to it; what the script says is `EnrollmentAnswers.StartSendsIff` |
| `EnrollmentRuntime.Runtime.GuardedStart` | product/control-plane/src/home_center/device_management_enrollment_execution_runtime_safe.py:129-146 | the guard over the job history in its order of refusals, ending in the base start only when no job of the plan exists |
| `EnrollmentRuntime.Runtime.Submit` | product/control-plane/src/home_center/device_management_enrollment_execution_runtime.py:239-260 | key, plan, currency and adapter are checked in the code's order before anything is stored |
| `EnrollmentRuntime.Runtime.Queue` | product/control-plane/src/home_center/device_management_enrollment_execution_runtime.py:251-266 | a new job is driven; an existing one is answered according to its state |
| `EnrollmentRuntime.Runtime.Drive` | product/control-plane/src/home_center/device_management_enrollment_execution_runtime.py:266-294 | the job runs before the command is sent, the command is sent once, its answer is recorded |
| `EnrollmentRuntime.Runtime.Settle` | product/control-plane/src/home_center/device_management_enrollment_execution_runtime.py:268-294 | a rejected or raising answer fails the job with the adapter's own safety claim; an accepted one becomes durable before the receipt |
| `EnrollmentRuntime.Runtime.Recover` | product/control-plane/src/home_center/device_management_enrollment_execution_recovery.py:47-149 | an acceptance that is already durable is finalized without any command |
| `EnrollmentRuntime.Runtime.Retry` | product/control-plane/src/home_center/device_management_enrollment_execution_recovery.py:181-214 | as for start (`EnrollmentAnswers.RetrySendsIff`), with the retry's own conditions on the newest and the failed job |
| `EnrollmentRuntime.Runtime.GuardedRetry` | product/control-plane/src/home_center/device_management_enrollment_execution_runtime_safe.py:148-171 | a retry is let through only for the newest attempt, and only if that failed safely |
| `EnrollmentRuntime.Runtime.Resubmit` | product/control-plane/src/home_center/device_management_enrollment_execution_runtime.py:300-308 | the failed job is checked again before the command is resubmitted |
| `EnrollmentRuntime.Runtime.Cancel` | product/control-plane/src/home_center/device_management_enrollment_execution_recovery.py:318-353 | completes a cancel job left by a crash, or goes through the guard; when it sends and succeeds is `EnrollmentAnswers.CancelSendsIff` |
| `EnrollmentRuntime.Runtime.GuardedCancel` | product/control-plane/src/home_center/device_management_enrollment_execution_runtime_safe.py:173-190 | replays a stored cancel receipt for the same key and otherwise refuses once any cancel job exists |
| `EnrollmentRuntime.Runtime.BaseCancel` | product/control-plane/src/home_center/device_management_enrollment_execution_runtime.py:310-357 | the only place a first cancel command is sent; it creates the job with the operation of the stored receipt |
| `EnrollmentRuntime.Runtime.CompleteCancel` | product/control-plane/src/home_center/device_management_enrollment_execution_recovery.py:216-316 | sends the command only if the job had not been running, and stores the receipt of the operation the job recorded |
| `EnrollmentRecovery.StartAfterCrash` | product/control-plane/src/home_center/device_management_enrollment_execution_recovery.py:47-179 | for a crash behind each of the six effects of a start: the same request drives the very same job under whatever it then meets, finalizes the stored acceptance without a call, returns the same receipt, or is refused without effect - which of them, exactly |
| `EnrollmentRecovery.RetryAfterCrash` | product/control-plane/src/home_center/device_management_enrollment_execution_recovery.py:181-214 | the same table for a retry, in every reachable state |
| `EnrollmentRecovery.FreshStart` | product/control-plane/src/home_center/device_management_enrollment_execution_runtime.py:239-298 | a first start that succeeds makes exactly six effects, in this order, and was accepted by the provider with the planned artifact |
| `JobKeys.RunKeysDistinct` | product/control-plane/src/home_center/store.py:517-525 | in every state of every run no two jobs have the same action, actor and idempotency key |
| `EnrollmentAnswers.StartSendsIff` | product/control-plane/src/home_center/device_management_enrollment_execution_recovery.py:151-179 | a start sends its command if and only if it is well formed, actor, Household, upstream records and adapter are as the plan needs them, the clock can be read, no receipt is stored, and the plan has no job or only the one this request left before any command; and exactly when it succeeds: the provider accepts the command, or an acceptance or a receipt of this request is stored |
| `EnrollmentAnswers.FirstStarts` | product/control-plane/src/home_center/device_management_enrollment_execution_runtime.py:239-298 | what a first start does, effect by effect: the job, its run, the command, then acceptance, success and a receipt of the plan's own provider, device and member, or a failure with the adapter's own claim of safety and its code |
| `EnrollmentAnswers.StartGuardRefusals` | product/control-plane/src/home_center/device_management_enrollment_execution_runtime_safe.py:129-146 | which refusal the states of the plan's jobs lead to, and in which order |
| `EnrollmentAnswers.StartRefusals` | product/control-plane/src/home_center/device_management_enrollment_execution_runtime.py:184-260 | which refusal form, actor, Household, upstream records, adapter and key lead to, and in which order |
| `EnrollmentAnswers.RetrySendsIff` | product/control-plane/src/home_center/device_management_enrollment_execution_recovery.py:181-214 | the same for a retry: every attempt has failed and the newest, which it names, failed safely - or the newest is what this request left before any command |
| `EnrollmentAnswers.CancelSendsIff` | product/control-plane/src/home_center/device_management_enrollment_execution_recovery.py:318-353 | a cancel sends its command if and only if it names the accepted start, nothing was cancelled, actor, Household, upstream records and adapter are as the plan needs them, and the plan has no cancel job or only the one this actor and key left before any command; what was sent succeeds and stores a receipt if and only if the adapter acknowledges it, and exactly when a cancel succeeds without sending |
| `EnrollmentAnswers.FirstCancels` | product/control-plane/src/home_center/device_management_enrollment_execution_runtime.py:310-357 | what a first cancel does, effect by effect: an acknowledged one stores the receipt of the start's operation and keeps the start receipt, any other fails its job and stores nothing |
| `EnrollmentAnswers.PlanStoredIff` | product/control-plane/src/home_center/device_management_enrollment_execution_runtime.py:197-220 | a plan is stored if and only if it can be built and its id is free, returned also if its id holds the same plan, and stored without a receipt |
| `Judgements.AcceptedStartMeans` | product/control-plane/src/home_center/device_management_enrollment_execution_runtime.py:268-294 | an answer is accepted if and only if it has the schema and its one-time artifact is there exactly if asked for, of that kind, not expired and not for longer than the timeout |
| `HouseholdSafety.ManagedFlipHasReceipt` | product/control-plane/src/home_center/device_management_enrollment_post_condition_runtime.py:447-623 | in every run, a write that sets a managed flag replaces exactly the plan's base snapshot, changes only the flag of the bound device of the bound member, and has an earlier stored receipt of a read-back that bound exactly these, was fresh, not future, verified and matched all signals |
| `HouseholdSafety.UnmanagedFlipHasReceipt` | product/control-plane/src/home_center/device_management_deenrollment_execution_runtime.py:229-340 | the same for a cleared flag, with a read-back that found the device unmanaged or absent |
| `HouseholdSafety.OnlyFlipsChangeFlags` | product/control-plane/src/home_center/device_management_deenrollment_execution_runtime.py:295-304 | no other action of a run ever changes a managed flag |
| `HouseholdSafety.NoUpdateLost` | product/control-plane/src/home_center/device_management_enrollment_post_condition_runtime.py:574-589 | every later Household of a run descends from every earlier one; equal generations mean equal snapshots |
| `HouseholdSafety.FlipsHaveOwnSource` | product/control-plane/src/home_center/device_management_enrollment_post_condition_runtime.py:513-623 | one verification or de-enrollment writes the Household at most once in a run, so no two flips share a receipt |
| `HouseholdSafety.FlippedFlipsOnly` | product/control-plane/src/home_center/device_management_enrollment_post_condition_runtime.py:447-486 | the expected snapshot differs from the base in one flag of the matching device and in nothing else |
| `Judgements.FlippedMeans` | product/control-plane/src/home_center/device_management_enrollment_post_condition_runtime.py:447-486 | a flag can be set if and only if the device exists, every device of that id is that member's with the other flag, and the generation can grow; the result is the base with that flag and the next generation |
| `Judgements.ActorRefusalMeans` | product/control-plane/src/home_center/device_management_enrollment_post_condition_runtime.py:136-152 | an actor is let through if and only if the first binding of the actor is to an administrator of the Household; which refusal else |
| `Judgements.DeviceProblemMeans` | product/control-plane/src/home_center/device_management_enrollment_post_condition_runtime.py:211-249 | a device is accepted if and only if the first one of its id is that member's with the flag asked for; which refusal else |
| `HouseholdSafety.BaseStays` | product/control-plane/src/home_center/device_management_enrollment_post_condition_runtime.py:296-311 | the snapshot a plan is based on never changes along a run |
| `HouseholdSafety.Holds` | product/control-plane/src/home_center/device_management_enrollment_post_condition_runtime.py:513-856 | pending and applied envelopes hold verified receipts that the run has stored, in every state of every run |
| `PostConditionRuntime.Runtime.Plan` | product/control-plane/src/home_center/device_management_enrollment_post_condition_runtime.py:221-361 | stores a verification plan of a current, accepted, uncancelled execution of an unmanaged device; an id that is taken must hold the same plan |
| `PostConditionRuntime.Runtime.Confirm` | product/control-plane/src/home_center/device_management_enrollment_post_condition_runtime_safe.py:21-39 | revalidation and adapter come before the step-up grant is spent; then exactly the scripted effects, or a prefix of them |
| `PostConditionRuntime.Runtime.ReadBack` | product/control-plane/src/home_center/device_management_enrollment_post_condition_runtime.py:714-731 | the envelope names the job before the job runs and before the provider is read |
| `PostConditionRuntime.Runtime.Judge` | product/control-plane/src/home_center/device_management_enrollment_post_condition_runtime.py:777-833 | the verdict stored is that of the read-back at the time it is judged; without a valid clock there is none |
| `PostConditionRuntime.Runtime.ApplyVerified` | product/control-plane/src/home_center/device_management_enrollment_post_condition_runtime.py:513-623 | Household first, then job, then envelope, and only from the base or the expected snapshot |
| `Judgements.PostFailureMeans` | product/control-plane/src/home_center/device_management_enrollment_verification.py:303-328 | a read-back passes if and only if it is exactly bound, neither from the future nor too old, verified and has the expected signals; for each reason, exactly when it is given |
| `PostConditionAnswers.PlanStoredIff` | product/control-plane/src/home_center/device_management_enrollment_post_condition_runtime.py:221-361 | a verification is planned if and only if an administrator who is the plan's actor asks for it over the Household of an accepted, uncancelled execution whose device is not managed, and its id is free or holds the same plan; what the plan then binds |
| `PostConditionAnswers.ConfirmEndsIff` | product/control-plane/src/home_center/device_management_enrollment_post_condition_runtime.py:625-856 | a confirmation ends applied if and only if it replays an applied envelope, or it is permitted, granted and new, its read-back passes and the flag can be set over the current Household; it ends rejected, with the reason that read-back gives, if and only if any other read-back can be judged |
| `PostConditionAnswers.ReadsEnd` | product/control-plane/src/home_center/device_management_enrollment_post_condition_runtime.py:714-856 | every effect of a confirmation that reads the provider, for each answer |
| `PostConditionAnswers.ConfirmWritesIff` | product/control-plane/src/home_center/device_management_enrollment_post_condition_runtime.py:574-589 | a confirmation writes the Household only over the base and for a read-back that passes, once, with the device's flag set and nothing else changed |
| `PostConditionAnswers.ConfirmRefusals` | product/control-plane/src/home_center/device_management_enrollment_post_condition_runtime.py:384-445 | which refusal a confirmation meets before its grant is spent, and in which order |
| `PostConditionRuntime.Runtime.RecoverIncomplete` | product/control-plane/src/home_center/device_management_enrollment_post_condition_runtime.py:858-912 | visits the stored envelopes in order; its effects are those of recovering them one after another in the states so reached |
| `PostConditionSafety.Holds` | product/control-plane/src/home_center/device_management_enrollment_post_condition_runtime.py:297-311 | in every state of every run a plan was made under the current actor bindings, its base is the current Household or an older one, and the job of a pending expectation has failed only if the expectation can no longer be applied |
| `PostConditionSafety.BindingsKept` | product/control-plane/src/home_center/household_runtime.py:261-262 | after bootstrap no write changes the actor bindings |
| `PostConditionSafety.PendingIsRecoverable` | product/control-plane/src/home_center/device_management_enrollment_post_condition_runtime.py:533-545 | in every run a pending envelope holds its expectation, so the branch of the apply that would build one is not taken in recovery |
| `PostConditionRecovery.ConvergentJobAlive` | product/control-plane/src/home_center/device_management_enrollment_post_condition_runtime.py:899-911 | in every run, while bindings are those of the plan and the Household is base or expected, the job of a pending envelope is verifying or succeeded |
| `PostConditionRecovery.AppliesIffConvergent` | product/control-plane/src/home_center/device_management_enrollment_post_condition_runtime.py:555-606 | in every run recovery of one envelope applies it if and only if bindings are unchanged and the Household is the base or the expected one |
| `PostConditionRecovery.ForeignHouseholdUntouched` | product/control-plane/src/home_center/device_management_enrollment_post_condition_runtime.py:554-564 | with any other Household, or other bindings, the Household and the envelope are left exactly as they are |
| `PostConditionRecovery.FailedJobUntouched` | product/control-plane/src/home_center/device_management_enrollment_post_condition_runtime.py:570-606 | an envelope whose job has failed is never written for again: recovery has nothing to do for it |
| `PostConditionRecovery.CrashedRecoveryResumes` | product/control-plane/src/home_center/device_management_enrollment_post_condition_runtime.py:858-912 | a recovery that dies after k effects leaves exactly the others to the next one |
| `PostConditionRecovery.RecoveryEffects` | product/control-plane/src/home_center/device_management_enrollment_post_condition_runtime.py:513-623 | recovery never calls the provider and writes the Household once if it is the base, and otherwise not |
| `PostConditionRecovery.PassResumes` | product/control-plane/src/home_center/device_management_enrollment_post_condition_runtime.py:858-912 | a recovery over all envelopes that dies after k effects leaves exactly the others to the next process start, which begins with the first envelope again |
| `PostConditionRecovery.RecoveryConverges` | product/control-plane/src/home_center/device_management_enrollment_post_condition_runtime.py:858-912 | over any number of process starts, each dying anywhere, the run continues with exactly the effects of one recovery that lives as long as all of them together |
| `PostConditionRecovery.RecoveryApplies` | product/control-plane/src/home_center/device_management_enrollment_post_condition_runtime.py:858-912 | whatever else is pending, an envelope is applied if and only if its own expectation can be applied and the first envelope before it that replaces the Household, if any, writes that same expectation; otherwise it stays pending and its job is not verifying |
| `PostConditionRecovery.PassHousehold` | product/control-plane/src/home_center/device_management_enrollment_post_condition_runtime.py:858-912 | one recovery writes the Household at most once, for the first envelope in key order that replaces it, and sends no command |
| `PostConditionRecovery.FirstInKeyOrderWins` | product/control-plane/src/home_center/device_management_enrollment_post_condition_runtime.py:858-912 | of two pending envelopes that replace the same Household for different devices the first in key order is applied and the other is left behind |
| `Rivals.RivalsCompete` | product/control-plane/src/home_center/device_management_enrollment_post_condition_runtime.py:858-912 | eight concrete requests, two of them abandoned behind their stored expectation with no process start in between, leave two such envelopes, and recovery applies the first and leaves the second pending |
| `PostConditionRecovery.RecoveryCounts` | product/control-plane/src/home_center/device_management_enrollment_post_condition_runtime.py:858-912 | a recovery returns the number of envelopes that it has applied |
| `PostConditionRecovery.RecoveryFinishes` | product/control-plane/src/home_center/device_management_enrollment_post_condition_runtime.py:858-912 | once interrupted recoveries have lived long enough together, every envelope that was pending has that outcome, and the Household the value the first replacing envelope expects |
| `PostConditionRecovery.RecoveryFinishesConfirm` | product/control-plane/src/home_center/device_management_enrollment_post_condition_runtime.py:835-856 | a confirmation that dies once its expectation is stored is finished by recovery with the very effects it had left; one that dies before is not touched |
| `DeenrollmentSafety.MutationsCovered` | product/control-plane/src/home_center/device_management_deenrollment_execution_runtime.py:391-476 | in every run, provider mutations of a plan, plus one if it is confirmed, never exceed its confirmations, nor these the step-up grants consumed |
| `DeenrollmentSafety.MutationNeedsOwnConfirmation` | product/control-plane/src/home_center/device_management_deenrollment_runtime.py:256-298 | between any two provider mutations of one plan, and before the first, the run contains a confirmation of it |
| `DeenrollmentRuntime.Runtime.Plan` | product/control-plane/src/home_center/device_management_deenrollment_runtime.py:129-193 | stores a plan for a managed device of an applied verification; an id that is taken must hold the same envelope |
| `DeenrollmentRuntime.Runtime.Confirm` | product/control-plane/src/home_center/device_management_deenrollment_runtime.py:256-314 | a confirmed plan is replayed; otherwise one grant is spent before the confirmation is stored |
| `DeenrollmentRuntime.Runtime.Execute` | product/control-plane/src/home_center/device_management_deenrollment_execution_runtime.py:370-605 | only a confirmed, current plan reaches the provider, and only under a new job |
| `DeenrollmentRuntime.Runtime.Mutate` | product/control-plane/src/home_center/device_management_deenrollment_execution_runtime.py:450-476 | the envelope says provider-running before the one mutation is sent |
| `DeenrollmentRuntime.Runtime.Answered` | product/control-plane/src/home_center/device_management_deenrollment_execution_runtime.py:477-537 | rejected, ambiguous, malformed and raised answers end in the states the code gives them; only an accepted one is read back |
| `DeenrollmentRuntime.Runtime.ReadBack` | product/control-plane/src/home_center/device_management_deenrollment_execution_runtime.py:538-605 | an unusable or failing read-back leads to reconciliation; a verified one is stored before it is applied |
| `DeenrollmentRuntime.Runtime.ApplyVerified` | product/control-plane/src/home_center/device_management_deenrollment_execution_runtime.py:229-340 | expectation, Household, job, envelope, in this order; a left-over expectation is used as it is |
| `DeenrollmentRuntime.Runtime.Reconcile` | product/control-plane/src/home_center/device_management_deenrollment_execution_runtime.py:607-806 | finishes a pending envelope or reads the provider again; never mutates |
| `Judgements.DeenrollFailureMeans` | product/control-plane/src/home_center/device_management_deenrollment.py:488-509 | a read-back passes if and only if it is exactly bound, neither from the future nor too old, and finds the device unmanaged or absent; for each reason, exactly when it is given |
| `DeenrollmentAnswers.PlanStoredIff` | product/control-plane/src/home_center/device_management_deenrollment_runtime.py:129-193 | a de-enrollment is planned if and only if an administrator asks for it, the verification is applied and its device managed, and the id is free or holds the same plan; what the plan then binds |
| `DeenrollmentAnswers.ConfirmEndsIff` | product/control-plane/src/home_center/device_management_deenrollment_runtime.py:256-314 | a plan is confirmed if and only if it is already, or it is current, a grant is spent for it and the clock is valid and not before the request |
| `DeenrollmentAnswers.ExecuteEndsIff` | product/control-plane/src/home_center/device_management_deenrollment_execution_runtime.py:370-605 | an execution clears the flag if and only if it replays an applied envelope, or the plan is confirmed and current, the provider accepts the mutation and then reports exactly this device, timely, as unmanaged or absent, and the flag can be cleared |
| `DeenrollmentAnswers.ExecutesEnd` | product/control-plane/src/home_center/device_management_deenrollment_execution_runtime.py:455-605 | every effect of an execution that sends its mutation, for each answer to the mutation and to the read-back |
| `DeenrollmentAnswers.ReconcileEndsIff` | product/control-plane/src/home_center/device_management_deenrollment_execution_runtime.py:607-806 | a reconciliation clears the flag if and only if it replays an applied envelope, finishes a pending one that can be finished, or is required and the provider reports exactly this device, timely, as unmanaged or absent and the flag can be cleared; and exactly when it only reports |
| `DeenrollmentAnswers.ReconcilesEnd` | product/control-plane/src/home_center/device_management_deenrollment_execution_runtime.py:700-806 | every effect of a reconciliation that reads the provider, for each answer |
| `DeenrollmentAnswers.PlanOutdatedMeans` | product/control-plane/src/home_center/device_management_deenrollment_runtime.py:209-254 | a stored plan may be carried out if and only if it belongs to its applied verification, actor, Household and bindings are those it was made with and the device is managed; which refusal else |
| `DeenrollmentRecovery.ReconcileSendsNothing` | product/control-plane/src/home_center/device_management_deenrollment_execution_runtime.py:607-806 | no effect of any reconciliation is a provider mutation |
| `DeenrollmentRecovery.ExecuteSendsOnce` | product/control-plane/src/home_center/device_management_deenrollment_execution_runtime.py:370-605 | an execution has at most one provider mutation among its effects, for its own plan, and only if the plan was confirmed when it began |
| `DeenrollmentRecovery.PendingFinishedIff` | product/control-plane/src/home_center/device_management_deenrollment_execution_runtime.py:635-661 | reconciliation finishes a pending envelope if and only if its expectation is stored, the Household is base or expected, and the job is not over as a failure |
| `DeenrollmentRecovery.ReconciliationsConverge` | product/control-plane/src/home_center/device_management_deenrollment_execution_runtime.py:635-661 | a finish that dies after k effects is continued by anyone's reconciliation with exactly the others, whatever the provider would answer |
| `DeenrollmentRecovery.ReconcileAfterCrash` | product/control-plane/src/home_center/device_management_deenrollment_execution_runtime.py:635-665 | for a crash behind each of the eleven effects of an execution: refused before the expectation is stored, and afterwards finished with the effects that were left |
| `DeenrollmentRecovery.FailedExecutionAfterCrash` | product/control-plane/src/home_center/device_management_deenrollment_execution_runtime.py:391-605 | for a crash behind each effect of an execution that ends rejected, ambiguous, with an unusable or a failing read-back, or without an expectation: the status it leaves, and how a reconciliation and the same execution then answer |
| `DeenrollmentRecovery.ReconciliationAfterCrash` | product/control-plane/src/home_center/device_management_deenrollment_execution_runtime.py:635-806 | for a crash behind each of the effects of a reconciliation that clears the flag: the envelope is untouched, or pending and refused, or finished by anyone with the effects that were left - which of them, exactly |
| `DeenrollmentRecovery.ReconfirmKeepsExpectation` | product/control-plane/src/home_center/device_management_deenrollment_runtime.py:276-298 | exactly when a pending plan can be confirmed again; it then is confirmed over its base and keeps the stored expectation |
| `DeenrollmentRecovery.LeftoverExpectationSticks` | product/control-plane/src/home_center/device_management_deenrollment_execution_runtime.py:246-269 | with an expectation left over, a crash behind the Household write leaves the envelope `verifying` over a Household past its base |
| `DeenrollmentRecovery.StuckRefuses` | product/control-plane/src/home_center/device_management_deenrollment_execution_runtime.py:391-476 | every confirmation, execution and reconciliation of such an envelope, by anyone, fails without effect |
| `Aftermath.StuckForEver` | product/control-plane/src/home_center/device_management_deenrollment_execution_runtime.py:655-665 | no sequence of later requests of any kind, dying anywhere, moves such an envelope |
| `Scenarios.LeftoverHistory` | product/control-plane/src/home_center/device_management_deenrollment_execution_runtime.py:246-269 | nine concrete requests, two of which die, leave such an envelope |
| `Scenarios.UnexpectedHistory` | product/control-plane/src/home_center/device_management_deenrollment_execution_runtime.py:793-806 | eight concrete requests leave a pending envelope without an expectation, which every reconciliation refuses |
| `CleanupSafety.AllOrNone` | product/control-plane/src/home_center/device_management_failed_enrollment_cleanup_execution_runtime.py:242-383 | in every reachable state, with one verification per execution, the one-time reference is in all three stored copies or in none |
| `CleanupSafety.StrandedExactly` | product/control-plane/src/home_center/device_management_failed_enrollment_cleanup_execution_runtime.py:327-383 | a copy is left behind exactly by the scrub for another verification of the same execution |
| `CleanupSafety.StrandedForEver` | product/control-plane/src/home_center/device_management_failed_enrollment_cleanup_execution_runtime.py:303-313 | such a copy is never removed later in the run |
| `CleanupSafety.CleanedForEver` | product/control-plane/src/home_center/device_management_failed_enrollment_cleanup_execution_runtime.py:413-504 | once a cleanup is completed, none of the three copies holds a reference in any later state |
| `CleanupSafety.ScrubOnlyErases` | product/control-plane/src/home_center/device_management_failed_enrollment_cleanup_execution_runtime.py:327-383 | the transaction changes artifacts only, in every record of every kind |
| `CleanupSafety.RedactionAuthorized` | product/control-plane/src/home_center/device_management_failed_enrollment_cleanup_execution_runtime.py:138-215 | when a reference is removed, a read-back stored with the authorization bound this cleanup and device, was still fresh, found it unmanaged or absent, and the Household was still the planned one |
| `CleanupSafety.Holds` | product/control-plane/src/home_center/device_management_failed_enrollment_cleanup_execution_runtime.py:242-504 | copies match the receipt up to its artifact, and completed cleanups are clean, in every state of every run |
| `CleanupRuntime.Runtime.Plan` | product/control-plane/src/home_center/device_management_failed_enrollment_cleanup_runtime.py:149-213 | stores a plan for an unmanaged device of a rejected verification; an id that is taken must hold the same envelope |
| `CleanupRuntime.Runtime.Verify` | product/control-plane/src/home_center/device_management_failed_enrollment_cleanup_runtime.py:291-468 | replays a verdict; otherwise revalidates, reads back under a new job and stores what was judged |
| `CleanupRuntime.Runtime.Execute` | product/control-plane/src/home_center/device_management_failed_enrollment_cleanup_execution_runtime.py:506-605 | revalidates the authority at this moment, scrubs all copies at once or none, then finishes |
| `CleanupRuntime.Runtime.Proceed` | product/control-plane/src/home_center/device_management_failed_enrollment_cleanup_execution_runtime.py:560-605 | a job of the same request is taken on from the state a crash left it in |
| `CleanupRuntime.Runtime.Finish` | product/control-plane/src/home_center/device_management_failed_enrollment_cleanup_execution_runtime.py:413-504 | the receipt is stored only over redacted copies |
| `CleanupAnswers.PlanStoredIff` | product/control-plane/src/home_center/device_management_failed_enrollment_cleanup_runtime.py:149-213 | a cleanup is planned if and only if an administrator asks for it, the verification is rejected and its device not managed, and the id is free or holds the same plan; what the plan then binds |
| `CleanupAnswers.VerifyEndsIff` | product/control-plane/src/home_center/device_management_failed_enrollment_cleanup_runtime.py:291-468 | a verification authorizes if and only if that is stored already, or it is current and new and the provider reports exactly this device, timely, as unmanaged or absent; a stored judgement is replayed as it is |
| `CleanupAnswers.VerifyEnds` | product/control-plane/src/home_center/device_management_failed_enrollment_cleanup_runtime.py:291-468 | every effect of a verification that reads the provider |
| `CleanupAnswers.ExecuteEndsIff` | product/control-plane/src/home_center/device_management_failed_enrollment_cleanup_execution_runtime.py:506-605 | a cleanup ends completed if and only if it is already, or its authority holds at this moment, the three copies agree and its key has no job or one of this request that can go on; it scrubs if and only if the reference is then still there |
| `CleanupAnswers.LeftExecutes` | product/control-plane/src/home_center/device_management_failed_enrollment_cleanup_execution_runtime.py:560-605 | a repeated execution does exactly the steps that the state of its job had left |
| `CleanupRecovery.ExecuteAfterCrash` | product/control-plane/src/home_center/device_management_failed_enrollment_cleanup_execution_runtime.py:506-605 | the same request after a crash behind any effect does exactly what was left and returns the same receipt, a pending scrub under the authority of the later moment |
| `CleanupRecovery.StrandedRefused` | product/control-plane/src/home_center/device_management_failed_enrollment_cleanup_execution_runtime.py:303-313 | the cleanup of a stranded copy has no effect and fails |
| `Scenarios.StrandingHistory` | product/control-plane/src/home_center/device_management_failed_enrollment_cleanup_execution_runtime.py:315-390 | eight concrete requests, none of which dies, leave a stranded copy |
| `Lifecycle.RunIsSafe` | product/control-plane/src/home_center/device_management_enrollment_execution_recovery.py:151-353 | no run repeats an ambiguous start, cancels a plan twice, mutates without a spent grant, writes the Household twice for one source, or holds a one-time reference in some of its three places only |
| `Lifecycle.Serve` | product/control-plane/src/home_center/device_management_deenrollment_execution_runtime.py:370-806 | any request of any runtime, served by a process that may die at any effect, does its effects, or a prefix of them, and leaves the store in the outcome of a run |
| `Lifecycle.ServeAll` | product/control-plane/src/home_center/device_management_enrollment_post_condition_runtime.py:513-912 | any sequence of requests and deaths is such a history, and all four safety properties hold of its end |
| `ProviderSelection.Service.Plan` | product/control-plane/src/home_center/device_management_provider_selection_runtime.py:196-279 | does the effects its script prescribes, or a prefix of them; proposals are stored only for enrollments without a binding, and which exactly `PlanEndsIff` says |
| `ProviderSelection.Service.Confirm` | product/control-plane/src/home_center/device_management_provider_selection_runtime.py:281-414 | audit event, binding, envelope in this order, or a prefix of them; a binding of the same proposal is completed, of another refused |
| `ProviderSelection.Service.Select` | product/control-plane/src/home_center/device_management_provider_selection_runtime.py:346-414 | a fresh confirmation: audit event, then binding, then envelope, each only if the one before is stored |
| `ProviderSelection.OneProviderPerEnrollment` | product/control-plane/src/home_center/device_management_provider_selection_runtime.py:281-414 | confirmed proposals of one enrollment, at any two moments of a run, are the same with the same receipt |
| `ProviderSelection.BoundForEver` | product/control-plane/src/home_center/device_management_provider_selection_runtime.py:174-194 | the binding of an enrollment never changes |
| `ProviderSelection.CompetitorRefusedForEver` | product/control-plane/src/home_center/device_management_provider_selection_runtime.py:311-315 | after a binding, a competing proposal can neither be confirmed nor planned at any later moment |
| `ProviderSelection.ConfirmAfterCrash` | product/control-plane/src/home_center/device_management_provider_selection_runtime.py:311-346 | a crash between binding and envelope is completed with the same receipt, and replays return it |
| `ProviderSelection.Holds` | product/control-plane/src/home_center/device_management_provider_selection_runtime.py:281-414 | every confirmed envelope agrees with the binding of its enrollment, in every state of every run |
| `ProviderSelection.PlanEndsIff` | product/control-plane/src/home_center/device_management_provider_selection_runtime.py:196-279 | planning succeeds if and only if the request is well formed, the actor bound, nothing refused and the enrollment unbound; the proposal is for the enrollment and the provider asked for, by the actor's member, and is stored afterwards, with no other envelope or binding changed |
| `ProviderSelection.ConfirmEndsIff` | product/control-plane/src/home_center/device_management_provider_selection_runtime.py:281-414 | a first binding is written if and only if the actor made the proposal, it is pending, nothing refuses it and the enrollment is unbound, and its receipt names that proposal and the audit event just written; what every other confirmation does or is refused with |
| `EnrollmentPlan.NormalizeCredentialReferences` | product/control-plane/src/home_center/device_management_enrollment_execution.py:208-230 | the loop accepts what its specification accepts, rejects with the problem of the first bad item, and returns the references in order of name |
| `EnrollmentPlan.ReferencesNormal` | product/control-plane/src/home_center/device_management_enrollment_execution.py:208-230 | accepted are exactly the lists of at most 16 valid references with distinct names; the result holds exactly these, strictly increasing by name |
| `EnrollmentPlan.NormalizeIdempotent` | product/control-plane/src/home_center/device_management_enrollment_execution.py:208-230 | normal references are read back as themselves |
| `EnrollmentPlan.ReferenceOrderIgnored` | product/control-plane/src/home_center/device_management_enrollment_execution.py:208-230 | any permutation of an accepted list is accepted, with the same result |
| `EnrollmentPlan.ReadsExactlyPrinted` | product/control-plane/src/home_center/device_management_enrollment_execution.py:385-482 | a document is read as a plan if and only if it is the printed form of that plan and the plan is valid and carries its own digest |
| `EnrollmentPlan.BuiltValid` | product/control-plane/src/home_center/device_management_enrollment_execution.py:310-382 | a built plan is valid, is about the selection, Household, catalog and actor given, and its provider is ready and offers its mode |
| `EnrollmentPlan.BuildsIff` | product/control-plane/src/home_center/device_management_enrollment_execution.py:310-382 | a plan is built if and only if selection, Household and catalog agree, the provider is ready and offers the mode, and references, timeout and artifact are acceptable; it holds what was asked for |
| `EnrollmentPlan.BuildRefusals` | product/control-plane/src/home_center/device_management_enrollment_execution.py:310-382 | which rejection is given: that of the first condition that is not met |
| `EnrollmentPlan.ItemProblemMeans` | product/control-plane/src/home_center/device_management_enrollment_execution.py:208-230 | which problem a reference that is not accepted has |
| `EnrollmentPlan.RevalidatesIff` | product/control-plane/src/home_center/device_management_enrollment_execution_runtime.py:184-195 | a valid plan passes if and only if selection, catalog, Household id, snapshot, version, generation and actor are unchanged and the provider still offers its mode |
| `EnrollmentPlan.StoredPlanSurvives` | product/control-plane/src/home_center/device_management_enrollment_execution_runtime.py:176-195 | building, printing, reading and revalidating is the identity when nothing changed |
| `EnrollmentPlan.BuildIgnoresOrder` | product/control-plane/src/home_center/device_management_enrollment_execution.py:310-382 | the order in which references are given changes neither the plan nor its id |
| `RunbookPlanner.PlanRunbook` | product/control-plane/src/home_center/automation_runbook.py:28-64 | succeeds exactly when ids are distinct, dependencies known and there is no cycle; a duplicate or unknown id that is reported is the first one; the result is a permutation of the steps, dependencies first, always the least ready id |
| `RunbookPlanner.RepeatDetermined` | product/control-plane/src/home_center/automation_runbook.py:30-33 | there is only one first repeated id |
| `RunbookPlanner.UnknownDetermined` | product/control-plane/src/home_center/automation_runbook.py:38-43 | there is only one first unknown dependency |
| `RunbookPlanner.Emit` | product/control-plane/src/home_center/automation_runbook.py:46-59 | the loop takes the least available step each time and stops only when none is available |
| `RunbookPlanner.PlanIsLeast` | product/control-plane/src/home_center/automation_runbook.py:46-64 | the plan is the lexicographically least of all topological orders |
| `RunbookPlanner.PlanOfSet` | product/control-plane/src/home_center/automation_runbook.py:28-64 | the order does not depend on the order of steps or dependencies, nor on repeated dependencies; and with the same steps the plans are identical |
| `RunbookPlanner.OrderedHasNoCycle` | product/control-plane/src/home_center/automation_runbook.py:61-62 | a graph with an order has no cyclic path |
| `RunbookPlanner.StuckHasCycle` | product/control-plane/src/home_center/automation_runbook.py:61-62 | if steps are left over, a cyclic path exists |
| `AutomationExecution.NormalizeRequest` | product/control-plane/src/home_center/automation_execution.py:133-178 | accepts exactly the requests with 1 to 64 distinct steps of registered actions and at most 16 distinct dependencies each; a rejection names what is wrong with the first step that is not accepted |
| `AutomationExecution.TargetInventory` | product/control-plane/src/home_center/automation_execution.py:181-209 | accepts exactly up to 64 nodes with distinct ids, and lists exactly their records |
| `AutomationExecution.PlanAutomationRunbook` | product/control-plane/src/home_center/automation_execution.py:212-298 | accepts exactly the well-formed, known, acyclic requests on a well-formed inventory, and returns the plan of their dependency order; which rejection is given else |
| `AutomationExecution.PlanOfSet` | product/control-plane/src/home_center/automation_execution.py:279-298 | permuting steps, dependencies or node records gives the identical plan |
| `AutomationExecution.NormalizedIgnoresOrder` | product/control-plane/src/home_center/automation_execution.py:169-177 | the order in which dependencies are given does not matter |
| `AutomationExecution.ReadyIff` | product/control-plane/src/home_center/automation_execution.py:237-292 | the plan is ready if and only if the target of every step is known, ready and has the required capability |
| `AutomationExecution.PlannedStepMeans` | product/control-plane/src/home_center/automation_execution.py:237-282 | every planned step is one of the request, numbered by its place, with its dependencies in order, the capability its action requires, and blocked exactly for what its target lacks |
| `AutomationExecution.PlanBlockersMean` | product/control-plane/src/home_center/automation_execution.py:254-275 | the blockers are exactly those of the planned steps, in the order of the steps' ids |
| `DeploymentPlanner.MakePlan` | product/control-plane/src/home_center/deployment_profiles.py:75-91 | the loops compute the specified greedy plan |
| `DeploymentPlanner.PlanIsGood` | product/control-plane/src/home_center/deployment_profiles.py:75-91 | within the cap, assignments are one-to-one, healthy and capable, leave no requirement open that an unused node fits, and are at least half of any feasible assignment |
| `DeploymentPlanner.PlannedIff` | product/control-plane/src/home_center/deployment_profiles.py:89-91 | `planned` if and only if the cap holds, every requirement is assigned in order, the minimum is met and, if asked for, enough failure domains are used |
| `DeploymentPlanner.PlanTakesLeast` | product/control-plane/src/home_center/deployment_profiles.py:76-87 | each requirement in turn gets the discovered node with the least id that is healthy, capable and not given to an earlier one, and stays open only if there is none |
| `DeploymentPlanner.BlockersMean` | product/control-plane/src/home_center/deployment_profiles.py:77-91 | exactly when each blocker is reported |
| `DeploymentPlanner.PlanIgnoresOrder` | product/control-plane/src/home_center/deployment_profiles.py:76-77 | with distinct node ids the plan does not depend on the order of discovery |
| `RateLimiter.ExternalRequestRateLimiter.Allow` | product/control-plane/src/home_center/external_access.py:227-241 | decides as the full history of admissions would; a denial leaves that history as it is |
| `RateLimiter.ExternalRequestRateLimiter.constructor` | product/control-plane/src/home_center/external_access.py:217-225 | starts with an empty history under limits the constructor accepts |
| `RateLimiter.WindowsBounded` | product/control-plane/src/home_center/external_access.py:227-241 | no closed window, wherever it begins, holds more admissions than the limit of the client or of the proxy |
| `RateLimiter.ProxyIsMergeOfClients` | product/control-plane/src/home_center/external_access.py:227-241 | in every state of the limiter the stored logs are in order, and from any horizon in the window on a proxy's stored log holds just the entries of its clients' stored logs, each counted once |
| `RateLimiter.Evict` | product/control-plane/src/home_center/external_access.py:234-236 | drops exactly leading entries older than the horizon, until none leads |
| `RateLimiter.LoginRateLimiter.Allow` | product/control-plane/src/home_center/auth.py:91-100 | decides as the admissions since the address was last cleared would |
| `RateLimiter.LoginRateLimiter.Clear` | product/control-plane/src/home_center/auth.py:102-104 | forgets one address and no other |
| `RateLimiter.LoginWindowsBounded` | product/control-plane/src/home_center/auth.py:91-100 | between two clears of an address no closed window, wherever it begins, holds more admitted attempts than the limit |
| `ParameterTree.Validate` | product/control-plane/src/home_center/automation_engine.py:50-81 | accepts exactly the values whose unfolding reaches no container twice, is at most 8 deep, has at most 1024 items and no forbidden name; a rejection is for one of these; at most 1025 pops on any finite graph |
| `ParameterTree.Push` | product/control-plane/src/home_center/automation_engine.py:60-81 | items are counted before they are pushed, and a mapping is left at the first forbidden name |
| `ParameterTree.EndlessRejected` | product/control-plane/src/home_center/automation_engine.py:54-62 | a value from which one can go on for ever is rejected |
| `AuditChain.VerifyRows` | product/control-plane/src/home_center/backup.py:96-117 | returns the head exactly when every row names its predecessor's tag and carries its own, and otherwise the first bad row and what is wrong with it |
| `AuditChain.AuditTrail.Audit` | product/control-plane/src/home_center/store.py:375-421 | appending keeps the chain intact and all earlier rows |
| `AuditChain.HeadDeterminesRows` | product/control-plane/src/home_center/backup.py:96-117 | two accepted lists with the same head under one key are equal up to row numbers |
| `AuditChain.PrefixIntact` | product/control-plane/src/home_center/backup.py:105-116 | every prefix of an accepted list is accepted |
| `PublicProvenance.ManifestInjective` | scripts/export_public_stable_provenance.py:155-157 | equal manifest text means equal digests and paths, for validated files |
| `PublicProvenance.SortedSetMembers` | scripts/export_public_stable_provenance.py:151-153 | sorting keeps exactly the given paths |
| `PublicProvenance.InOrderIffIncreasing` | scripts/export_public_stable_provenance.py:151-153 | the order check accepts exactly the strictly increasing lists of paths |
| `PublicProvenance.AcceptedMeans` | scripts/export_public_stable_provenance.py:111-170 | accepted records are in order, their counts add up, and equal manifests approve the same content |
| `PublicProvenance.AcceptedIff` | scripts/export_public_stable_provenance.py:111-170 | accepted are exactly the non-empty lists of valid files under strictly increasing paths with the manifest and the counts that belong to them |

## Left out

- HTTP handlers, the web interface, SQLite, file, tar and process input and output, TLS, Kerberos: request plumbing and foreign calls; the store appears by its contract only.
- SHA-256, HMAC and canonical JSON: taken as injective, and modelled by what they are applied to.
- The formats of identifiers, timestamps and digests are checked only where a property needs them; a request says whether it is well formed, and its idempotency key whether it is valid.
- Audit events of the lifecycle operations and the constant authority flags of receipts: no decision reads them.
- Error codes are shortened; codes that no caller treats differently share one.
- A Household that is not configured yet: runs begin with a bootstrapped one.
- The rollback of a Household write whose read-back differs: under serialised operations the read-back equals the write.
- Progress from `provider-running` and `verifying` de-enrollments, and recovery of a cancel stored by the base operation: the code stays blocked there.
- PostConditionRuntime.Runtime.RecoverIncomplete: a pending envelope without a stored expectation occurs in no run (`PostConditionSafety.PendingIsRecoverable`); the branch that would rebuild it is not modelled.
- AutomationExecution.NormalizeRequest: the action's own input is taken as already normalized, because its check looks at no other field.
- RunbookPlanner.PlanRunbook: blank step ids and actions, which the step's constructor refuses, do not occur in the model.
- RunbookPlanner.Emit: the heap is a multiset whose least element is taken; `heapq` itself is not modelled.
- EnrollmentPlan.Build: the selection receipt and the catalog are taken as already read, and the catalog's id as one of its fields; the lifecycle modules use the outcome of revalidation as the `upstreamCurrent` parameter of a call.
- Parsing of provider catalogs and of adapter results: field checks with no interacting state.
- Evaluation and release scripts, home-service state, certificates, capacity, placement scores, roles and cluster health: equality and field checks with no interacting state.
