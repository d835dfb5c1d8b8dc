# Verified model of the security-posture service

The service keeps its work in PostgreSQL rows that several processes move with leases, fences, revisions and
compare-and-set updates. This project models each transaction as a step on a state, proves what every run of
those steps keeps, and ties imperative versions of the transactions to the steps.

| files | what they model |
|---|---|
| `Options`, `Counting` | nullable columns, request fields, set sizes |
| `Reconciliation`, `ReconciliationLaws`, `SourceStateLaw` | reconciling imported scans with stored findings |
| `AssessmentJobs`, `AssessmentTransport`, `AssessmentPool`, `AssessmentPoolLaws`, `AssessmentPoolLimits`, `AssessmentService` | dispatching AI assessments under a shared concurrency and rate limit |
| `AiAuthority`, `AiAuthorityLaws`, `AiAuthorityService` | provider profiles, workspace policy and egress grants |
| `Deliveries`, `Outbox`, `OutboxLaws`, `OutboxService` | the delivery outbox |
| `DeliveryBinding`, `Notifications`, `NotificationLaws`, `TicketLaws`, `EvaluationLaws`, `HeldKey`, `NotificationService` | delivery binding, notification policies, one Jira ticket per finding |
| `RestoreJournal`, `Restore` | restore journal and cleanup under faults and crashes |
| `ObjectIndex`, `ObjectTotals` | the backup's object index and its totals |
| `Decisions`, `DecisionLaws`, `Correlations`, `CorrelationLaws`, `FindingService` | finding decisions and correlation groups |
| `ReportQueue` | the two report queues and their scheduler |
| `Utf8`, `Surrogates` | the scanner for reviewed context text |

`dafny verify dfyconfig.toml` checks everything.

## Reading the model

- A state machine is a datatype, a `Step` datatype, a total `Apply` in which a guard that fails changes nothing
  (an UPDATE that matches no row), and `Run` over any sequence of steps. Steps of different workers interleave
  freely, and a crash is a step.
- Imperative code is a class whose `Model()` is the state. Its methods state their effect as steps, so the
  theorems about runs apply to them.
- Times are integers: microseconds for database columns; in the assessment pool also nanoseconds for worker
  clocks, with the database reading real time truncated. Clocks never run backwards.
- SHA-256 over JSON is taken to be injective, so a digest is the value it binds. Format checks that depend on
  URL parsing or regular expressions are predicates passed in as `Rules`.

## Where a promise needs a condition

- The source state follows the evidence except for a finding first stored by a failed, timed import;
  `SourceStateIsEvidence` gives the exact condition and `FailedOpeningDependsOnOrder` a history that fails.
  Only the state is order independent, not the stored scan time (`ScanTimeDependsOnOrder`).
- The concurrency limit counts reservations, and a reservation ends with its persisted deadline even when the
  attempt's sockets do not: `LiveAttemptReservesIff` gives the exact rule and `LiveAttemptsCanExceedLimit` a run
  with two live attempts where one is allowed.
- The request limit holds for every half-open interval of one window length, because the count takes starts
  strictly after the window's beginning. A closed interval can also hold what started at its left end
  (`ClosedWindowIsBounded`), up to twice the limit (`ClosedWindowHoldsTwiceTheLimit`).
- The index parser accepts carriage returns and a missing last newline, so only the check of the canonical bytes
  makes printing its inverse (`AcceptedIndexIsCanonical`), and a round trip needs every line to fit the 1 MiB
  scanner buffer (`RoundTrip`).
- An evaluation rolls back exactly when a policy that would insert a delivery has its key or identifier taken
  (`EvaluationCommitsIff`). A manual delivery can take a policy's key. Then every attempt rolls back, for all
  policies, until a worker evaluates the change while that policy's connection is stale, its Jira ticket is taken,
  or the worker itself has no public origin (`InOrderEndsIff`, `ManualKeyBlocksPolicies`, `OriginDecidesRetry`).
- An expired suppression refuses even a patch of the owner alone (`ExpiredSuppressionBlocksPatches`,
  `ReassigningFailsAfterExpiry`).
- The S3 client sends a call twice when the first answer is lost. A conditional PUT is then refused because of its
  own first attempt, and the restore strikes the key from its journal: a completed cleanup leaves that one object
  (`RestoreThenCleanups`, `NothingStaysIff`, `ResentPutLeavesItsObject`). With one attempt per PUT nothing stays.
- After its third claim a report job becomes terminal only by its live holder or by a sweep that chooses it
  (`ThirdClaimIsTheLast`). A sweep takes at most 100 jobs and skips locked ones, so a job can wait through any
  number of them (`SkippedJobKeepsWaiting`).
- The surrogate scanner does not look at UTF-8. It keeps repaired text out exactly because the whole request
  body was checked before (`GuardedContextIsExact`, `ScannerAloneMissesBadBytes`).

## Model

| member | source | states |
|---|---|---|
| `Reconciliation.FindingStore.constructor` | internal/app/reconcile.go:93-129 | A new store has no coverage, no findings and no observations. |
| `Reconciliation.FindingStore.Reconcile` | internal/app/reconcile.go:93-251 | The batched transaction (slices of 100, upserts then observations, then the absence sweep) refines `Reconciled`; a lost lease changes nothing. |
| `ReconciliationLaws.ImportAt` | internal/app/reconcile.go:130-251 | An import acts on each finding independently: the store seen at one key is one step of that key's own view. |
| `ReconciliationLaws.UpsertsKeepHealth` | internal/app/reconcile.go:253-293 | Every upsert moves scan time and freshness forward only, keeps freshness under coverage, and leaves a reopened finding observed. |
| `ReconciliationLaws.ImportKeepsHealth` | internal/app/reconcile.go:218-235 | After any import, failed ones included: coverage, scan time and freshness never decrease, freshness never exceeds coverage, inferred-resolved implies scan time < freshness = coverage, reopened implies observed. |
| `ReconciliationLaws.HistoriesStayHealthy` | internal/app/reconcile.go:218-280 | The same over every history and between any prefix of it and its end. |
| `ReconciliationLaws.LabelTellsTheProjection` | internal/app/reconcile.go:57-91 | The first report of a finding by a successful import is labelled historical exactly when it lost against a different stored projection; any other label means the stored content is its own; no reasons exactly for a comparable import that is not historical. |
| `ReconciliationLaws.RepeatedReportKeepsLabel` | internal/app/reconcile.go:57-91 | A repeated report in one import keeps the first report's content and label. |
| `SourceStateLaw.CoverageIsLatestScan` | internal/app/reconcile.go:218-251 | The stored coverage of a scope is the maximum scan time of the comparable imports of that scope, whatever order they arrived in, and absent exactly when there is none. |
| `SourceStateLaw.SourceStateIsEvidence` | internal/app/reconcile.go:130-156 | A finding with a timed observation is inferred-resolved exactly when a comparable scan is later than every sighting, if and only if the history is not `Blocked` (first reported by a failed, timed import whose shadow no later sighting escapes); a blocked one stays unknown. |
| `SourceStateLaw.SourceStateIsOrderIndependent` | internal/app/reconcile.go:253-280 | Any two processing orders of the same succeeded imports end in the same source state. |
| `SourceStateLaw.FailedOpeningDependsOnOrder` | internal/app/reconcile.go:130-156 | A concrete history: with a failed import first, two orders of the same imports end in different states. |
| `SourceStateLaw.ScanTimeDependsOnOrder` | internal/app/reconcile.go:253-280 | A concrete history of succeeded imports whose stored scan time depends on the order, although the state does not. |
| `AssessmentJobs.NativeOutcome` | internal/app/assessment_finalize.go:61-128 | For every provider result, error and HTTP flag combination the outcome satisfies the result/failure constraints, and succeeds exactly when the call did, the echo matches, the metadata is storable and the assessment is publishable; the retry delay is clamped to a day. |
| `AssessmentJobs.KeepMetadata` | internal/app/assessment_finalize.go:70-85 | Each value is kept exactly when it is short and clean; a reported cause stays, and otherwise there is a cause exactly when some value was not kept. |
| `AssessmentJobs.CheckAssessment` | internal/app/assessment_finalize.go:99-115 | An assessment is accepted exactly when its uncertainty is bounded, clean and not blank and each of at most 16 references is the approved context. |
| `AssessmentJobs.FinalCause` | internal/app/assessment_finalize.go:87-117 | A timeout wins, then the cause so far; with neither there is no cause exactly when the response arrived, echoes the binding and is publishable. |
| `AssessmentJobs.FinalOutcomeIsOk` | internal/app/assessment_finalize.go:130-187 | A denial or an operation error replaces the outcome and still satisfies the constraints. |
| `AssessmentTransport.PerformKeepsAccount` | internal/app/assessment_client.go:149-229 | Every dial, registration and close keeps the socket account: nothing is open that is neither registered, dialing nor remembered as a failed close. |
| `AssessmentTransport.QuietForever` | internal/app/assessment_client.go:162-229 | Once close() has returned true, no socket and no dial of the attempt exists, however a dial raced with it, and none ever exists again. |
| `AssessmentPoolLaws.RowStepIsOk` | internal/app/assessment_schema.go:43-88 | Every row written by expiry, settlement, refresh, invalidation, cancellation and finalization satisfies all CHECK constraints and fence = attempts + (1 if terminal). |
| `AssessmentPoolLaws.MarkIsOk` | internal/app/assessment_claim.go:152-172 | The single-attempt marker satisfies the constraints, and the rounded-up database deadline covers the worker's own deadline. |
| `AssessmentPoolLaws.LocalDeadlineIsCovered` | internal/app/assessment_admission.go:21-23 | The worker's deadline lies inside the persisted one for every budget if and only if the worker read its clock no later than the tick the database reads: the condition in the marker's guard is exact. |
| `AssessmentPoolLaws.CommitKeepsRate` | internal/app/assessment_claim.go:127-138 | Committing a marker counted under the quota lock keeps every window within the request limit, with no refund. |
| `AssessmentPoolLaws.CommitKeepsCapacity` | internal/app/assessment_claim.go:127-172 | Committing a marker counted under the quota lock keeps the reservations within the concurrency limit. |
| `AssessmentPoolLaws.StepKeepsInv` | internal/app/assessment_claim.go:46-202 | Every transaction, I/O event, crash and clock tick keeps the pool invariant. |
| `AssessmentPoolLaws.LiveIoNeverExceedsLimit` | internal/app/assessment_worker.go:202-243 | At every instant of every run, the attempts with a live socket or dial whose persisted deadline has not passed never exceed the concurrency limit, whatever jobs are cancelled, expired or finalized mid-I/O. |
| `AssessmentPoolLaws.LiveAttemptReservesIff` | internal/app/assessment_claim.go:120-138 | In every run a live attempt holds a counted reservation if and only if its persisted deadline has not passed, and an attempt before its own deadline is always before that one. |
| `AssessmentPoolLimits.LiveAttemptsCanExceedLimit` | internal/app/assessment_claim.go:120-138 | A concrete run with room for one: two attempts are live, the first past its deadline with its dial still out. |
| `AssessmentPoolLaws.RequestsNeverExceedLimit` | internal/app/assessment_claim.go:114-138 | Every half-open interval as long as the window holds at most the permitted number of dispatch starts. |
| `AssessmentPoolLaws.ClosedWindowIsBounded` | internal/app/assessment_claim.go:114-138 | A closed interval holds at most the starts at its left end plus the permitted number, so at most twice that number. |
| `AssessmentPoolLimits.ClosedWindowHoldsTwiceTheLimit` | internal/app/assessment_claim.go:114-138 | A concrete run in which two requests per seven ticks are allowed and four start in the closed interval from 0 to 7. |
| `AssessmentPoolLimits.DispatchRuns` | internal/app/assessment_claim.go:114-202 | Wherever both limits leave room, a new job can be enqueued, admitted, marked, committed and dialled, with exactly this result. |
| `AssessmentPoolLaws.AtMostOneRequestPerJob` | internal/app/assessment_client.go:68-98 | A job's native request is handed to the transport at most once in any run. |
| `AssessmentPoolLaws.EveryRowIsOk` | internal/app/assessment_schema.go:43-88 | Every job row of every reachable state satisfies the constraints and the fence equation. |
| `AssessmentPoolLaws.RunSettles` | internal/app/assessment_finalize.go:177-193 | No run changes a terminal state or its result, and fences never fall. |
| `AssessmentPoolLaws.RetiredOwnerIsPowerless` | internal/app/assessment_claim.go:225-230 | An owner whose fence was retired can neither refresh, invalidate nor finalize the job, now or in any later state. |
| `AssessmentService.QuotaRow.constructor` | internal/app/assessment_admission.go:27-70 | The singleton quota row starts without scope or limits. |
| `AssessmentService.QuotaRow.Register` | internal/app/assessment_admission.go:27-70 | No second scope and no second set of limits is ever accepted; what was registered never changes. |
| `AssessmentService.AssessmentDatabase.constructor` | internal/app/assessment_admission.go:27-70 | A new database is the open pool. |
| `AssessmentService.AssessmentDatabase.Dispatch` | internal/app/assessment_claim.go:114-202 | Dispatches exactly when both quotas leave room, the guarded marker matches and authority still holds; the new state is admit, mark, commit. |
| `AssessmentService.AssessmentDatabase.ClaimAssessment` | internal/app/assessment_claim.go:46-202 | Expires, settles or dispatches the selected job; its effect is a run of pool steps, and the exact dispatch condition is stated. |
| `AssessmentService.AssessmentDatabase.CancelAssessment` | internal/app/assessment_jobs.go:163-215 | Fences the public result and leaves the I/O reservation alone. |
| `AssessmentService.AssessmentDatabase.RefreshAssessment` | internal/app/assessment_claim.go:204-263 | Extends the lease exactly when the row is held within its deadline and the authority holds at the write and again at the recheck after it, and otherwise changes nothing; retires the job when authority is gone. |
| `AssessmentService.AssessmentDatabase.FinalizeAssessment` | internal/app/assessment_finalize.go:130-216 | Recorded exactly when the lease, fence and authority hold at the write and again at the recheck after it, the transaction was not stopped and a success was not interrupted; then it is one pool step, and otherwise nothing changes. A lost lease is told apart from a changed state. |
| `AssessmentService.AssessmentDatabase.Perform` | internal/app/assessment_client.go:149-229 | One I/O event of one attempt is one pool step. |
| `AssessmentService.AssessmentDatabase.CloseSnapshot` | internal/app/assessment_client.go:208-224 | The walk over the snapshot is a run of pool steps that empties it, leaves the dials alone, and fails exactly when a registered socket refused to close. |
| `AssessmentService.AssessmentDatabase.AwaitDials` | internal/app/assessment_client.go:162-229 | Waiting ends with no dial out, and fails exactly when a dial brought in a socket that refused to close. |
| `AssessmentService.AssessmentDatabase.CloseSockets` | internal/app/assessment_client.go:162-229 | close() returns whatever dials are in flight, and reports failure exactly when some socket, registered or brought in by a late dial, refused to close. |
| `AssessmentService.AssessmentDatabase.CloseAndRelease` | internal/app/assessment_worker.go:202-243 | The reservation is given back exactly when every socket closed, late dials included, and then nothing of the attempt is live; otherwise no row changes. |
| `AiAuthority.ApplyInput` | internal/app/ai_profiles.go:20-66 | An accepted profile passes validation, and a null key is accepted only for a local profile, which then has no credential. |
| `AiAuthorityLaws.StepEvolves` | internal/app/ai_profiles.go:130-153 | Revisions only grow and a revision names one version of a profile or of the policy; grants change only by being revoked. |
| `AiAuthorityLaws.StepKeepsInv` | internal/app/ai_grants.go:43-70 | A grant never runs ahead of the rows it names, and where the revisions agree the rows are as approved. |
| `AiAuthorityLaws.ResolvedGrantSeesWhatWasApproved` | internal/app/ai_resolver.go:133-175 | If a hosted grant resolves at any later time, the whole profile row, credential included, and the policy are those at the grant's creation. |
| `AiAuthorityLaws.NoGrantComesBack` | internal/app/ai_resolver.go:147-165 | A grant that stops matching, for whatever reason, never matches again. |
| `AiAuthorityLaws.GrantResolvesIff` | internal/app/ai_resolver.go:111-175 | In every reachable state a grant resolves exactly when both revisions are unmoved and it is neither revoked nor expired (and the credential opens). |
| `AiAuthorityLaws.ProfileEditRetiresGrants` | internal/app/ai_profiles.go:50-65 | An edit keeps the profile's grants exactly when it fails or changes nothing and supplies no key. |
| `AiAuthorityService.ApplyProfileInput` | internal/app/ai_profiles.go:20-66 | The field-by-field assignment computes `ApplyInput` and the changed flag. |
| `AiAuthorityService.AuthorityDatabase.constructor` | internal/app/ai_schema.go:3-44 | New tables are empty. |
| `AiAuthorityService.AuthorityDatabase.UpdateAIProfile` | internal/app/ai_profiles.go:112-159 | One authority step; the revision moves by at most one, and by none on an error. |
| `AiAuthorityService.AuthorityDatabase.UpdateAIPolicy` | internal/app/ai_policy.go:15-54 | One authority step; a racing first insert bumps the revision of the row that won. |
| `AiAuthorityService.AuthorityDatabase.CreateAIGrant` | internal/app/ai_grants.go:11-79 | A grant is created exactly when it matches at once. |
| `AiAuthorityService.AuthorityDatabase.RevokeAIGrant` | internal/app/ai_grants.go:81-112 | Revocation happens once and is idempotent. |
| `Deliveries.DeliveryOutcome` | internal/app/remediation_worker.go:341-364 | Terminal; delivered exactly when the adapter said so without error; a cancelled send that was not delivered is uncertain; the token never appears in the native code. |
| `Deliveries.AcceptedOutcome` | internal/app/remediation_teams_worker.go:9-22 | Never confirmed, accepted exactly on an uncancelled acceptance, no native code stored. |
| `Deliveries.InterruptedOutcome` | internal/app/remediation_jira_worker.go:172-192 | Uncertain exactly when an attempt was recorded; a denial code means blocked and not attempted. |
| `Deliveries.MetadataOutcome` | internal/app/remediation_jira_worker.go:194-206 | A failed preview is never a delivery. |
| `Deliveries.SentOutcome` | internal/app/remediation_jira_worker.go:277-305 | After a send: delivered only without a native error, and uncertain whenever the guarded context was cancelled. |
| `OutboxLaws.StoredIsOk` | internal/app/remediation_jira_worker.go:208-252 | Whatever a live owner stores keeps the row constraints, and a delivered state comes only after a send. |
| `OutboxLaws.StepKeepsInv` | internal/app/remediation_worker.go:182-339 | Every claim, block, recovery, marker, send, completion, crash and tick keeps the outbox invariant. |
| `OutboxLaws.AtMostOneSend` | internal/app/remediation_worker.go:391-444 | At most one native send per delivery in any run of any number of workers; confirmed or accepted means sent exactly once. |
| `OutboxLaws.TerminalIsFinal` | internal/app/remediation_worker.go:366-389 | No run changes any field of a terminal delivery. |
| `OutboxLaws.DisownedWasNeverSent` | internal/app/remediation_worker.go:196-212 | A guarded delivery closed for an expired lease or a denial was not sent before and is not sent by any later step. |
| `OutboxLaws.LapsedOwnerIsPowerless` | internal/app/remediation_jira_worker.go:208-252 | A dispatch that outlived its lease cannot store an outcome. |
| `OutboxLaws.RecoveryIsHonest` | internal/app/remediation_worker.go:196-212 | Recovery ends the delivery; blocked means it was not sent, and a sent one becomes uncertain. |
| `OutboxService.DeliveryDatabase.constructor` | internal/app/remediation_schema.go:16-37 | A new outbox is empty. |
| `OutboxService.DeliveryDatabase.ClaimDelivery` | internal/app/remediation_worker.go:182-339 | One outbox step; hands out a dispatch exactly for a queued row with no reason against it and an acknowledged commit. |
| `OutboxService.DeliveryDatabase.MarkDeliveryAttempt` | internal/app/remediation_jira_worker.go:127-157 | One outbox step; permission to send means the marker is durable under the live lease. |
| `OutboxService.DeliveryDatabase.CallAdapter` | internal/app/remediation_worker.go:431-436 | One send. |
| `OutboxService.DeliveryDatabase.FinishDelivery` | internal/app/remediation_jira_worker.go:208-252 | Stores exactly when the lease is live and the commit lands. |
| `OutboxService.DeliveryDatabase.SendAndFinish` | internal/app/remediation_worker.go:431-444 | The send and its outcome are outbox steps. |
| `OutboxService.DeliveryDatabase.MarkSendFinish` | internal/app/remediation_teams_worker.go:32-60 | Sends exactly when the marker was written and acknowledged. |
| `OutboxService.DeliveryDatabase.ProcessDispatch` | internal/app/remediation_jira_worker.go:254-305 | Preview, marker, send and finish in order; the exact condition for a send is stated for all four profiles. |
| `DeliveryBinding.DecimalReadsBack` | internal/app/notification_policy_worker.go:90-98 | A number parses back from its decimal form. |
| `DeliveryBinding.PayloadRoundTrip` | internal/app/remediation_deliveries.go:26-37 | A stored payload is read back exactly, absent and empty fields included. |
| `DeliveryBinding.TagAloneLosesEmptyFields` | internal/app/remediation_deliveries.go:19-37 | The plain struct tag would round-trip exactly the payloads whose field map is not empty-but-present. |
| `DeliveryBinding.JiraRoundTrip` | internal/app/remediation_jira.go:18-39 | A Jira target is read back exactly by the decoder that rejects unknown fields, a nil and an empty mapping kept apart. |
| `DeliveryBinding.TeamsRoundTrip` | internal/app/remediation_teams.go:15-54 | A Teams destination, written flat, is read back exactly. |
| `DeliveryBinding.WebhookRoundTrip` | internal/app/remediation_webhook.go:16-32 | A webhook target is read back exactly. |
| `DeliveryBinding.StoredReadsBack` | internal/app/remediation_deliveries.go:162-204 | A stored delivery, payload and all three target columns, is read back as the intent it was made from. |
| `DeliveryBinding.StoredIsValid` | internal/app/remediation_deliveries.go:269-310 | After the trip through its JSON columns a row is accepted exactly when key, trigger and shape of the intent were in order. |
| `DeliveryBinding.DigestBinds` | internal/app/remediation_deliveries.go:206-267 | Two accepted rows with one digest deliver the same payload to the same destination for the same trigger. |
| `DeliveryBinding.ManualRowIsValid` | internal/app/remediation_jira.go:102-180 | Every manual intent that is built is accepted when re-read. |
| `DeliveryBinding.PolicyRowIsValid` | internal/app/notification_policy_worker.go:100-165 | Every policy intent that is built is accepted when re-read, its key within 256 bytes. |
| `DeliveryBinding.PolicyKeyIsInjective` | internal/app/notification_policy_worker.go:95-98 | A policy's idempotency key determines policy, finding and change revision. |
| `NotificationLaws.LatestIsMaximal` | internal/app/notification_policy_worker.go:199-206 | The recursive lookup is the query's newest revision not after the epoch. |
| `NotificationLaws.StepKeepsEpochs` | internal/app/notification_policies.go:143-149 | Revision rows carry strictly growing epochs and a policy row is its newest revision row. |
| `NotificationLaws.LookupIsTimeTravel` | internal/app/notification_policies.go:345-399 | At any later time, looking a policy up by an earlier epoch gives the policy as it stood then, absence included. |
| `NotificationLaws.EvaluationSeesThePoliciesOfTheImport` | internal/app/reconcile.go:121-129 | Read epoch, interleave, record the change, interleave: every policy looked up by the event is the one live when the import read the epoch. |
| `NotificationLaws.EvaluationAppends` | internal/app/notification_policy_worker.go:223-289 | The loop appends exactly one outcome per selected policy that matches, unless it rolls back. |
| `NotificationLaws.OneOutcomePerMatchingPolicy` | internal/app/notification_policy_worker.go:179-306 | Over every run with lease losses and reclaims: a policy has an outcome for a change exactly when the change is evaluated and its revision at the event's epoch matches; never two; naming that revision. |
| `TicketLaws.InsertKeepsTickets` | internal/app/remediation_deliveries.go:354-375 | Inserting a delivery with its effect row keeps the two tables in step. |
| `TicketLaws.OneTicketPerFinding` | internal/app/remediation_deliveries.go:425-470 | Over any mix of manual enqueues and evaluations at most one Jira delivery exists per connection and finding, and the effect table is exactly the table of those deliveries. |
| `TicketLaws.EveryDeliveryRereadsValid` | internal/app/remediation_deliveries.go:269-310 | Every delivery ever inserted passes the worker's binding check after being stored and re-read. |
| `EvaluationLaws.EvaluationCommitsIff` | internal/app/notification_policy_worker.go:223-306 | The holder's evaluation commits if and only if no policy that would insert a delivery has its key or identifier taken by a delivery stored before; otherwise nothing changes. |
| `EvaluationLaws.LoopStands` | internal/app/notification_policy_worker.go:223-289 | After any number of policies the loop has failed exactly when one of them clashed, has added rows of those policies only, and has reserved exactly the tickets they claim. |
| `EvaluationLaws.TakenBefore` | internal/app/notification_policy_worker.go:242-289 | Policies evaluated together never take each other's keys. |
| `EvaluationLaws.HeldKeyBlocksForever` | internal/app/notification_policy_worker.go:242-306 | Once a key is taken, no later run evaluates the event as long as the policy would still insert its delivery at every attempt. |
| `EvaluationLaws.HeldKeyEndsIff` | internal/app/notification_policy_worker.go:179-306 | Over any later run, for any policy that wants the change and whose key is taken: the change becomes evaluated if and only if a live holder evaluates it while the connection is stale, the ticket is taken, the holder has no public origin or rejects the payload, and no other policy clashes. |
| `EvaluationLaws.InOrderEndsIff` | internal/app/notification_policy_worker.go:100-306 | The same for a policy, Jira or not, whose connection was current and whose payload was in order: a stale connection, a taken ticket or an empty origin are the only ways. |
| `HeldKey.ManualKeyBlocksPolicies` | internal/app/remediation_deliveries.go:377-476 | A concrete run from an empty workspace: a manual delivery that uses the policy's key is accepted, and from then on the change becomes evaluated exactly as the rule says. |
| `HeldKey.OriginDecidesRetry` | internal/app/notification_policy_worker.go:100-105 | After it, with the channel as it is, the next worker evaluates the change if and only if that worker has no public origin. |
| `NotificationService.Position` | internal/app/notification_policies.go:18 | The place of a kind in the fixed list. |
| `NotificationService.NormalizeChangeKinds` | internal/app/notification_policies.go:123-141 | Accepts exactly one to three distinct known kinds and returns the same kinds in the fixed order. |
| `NotificationService.Amend` | internal/app/notification_policies.go:345-378 | The stepwise assignments compute the amended policy. |
| `NotificationService.NotificationDatabase.constructor` | internal/app/notification_policy_schema.go:3-150 | A new workspace is empty. |
| `NotificationService.NotificationDatabase.CreateNotificationPolicy` | internal/app/notification_policies.go:178-246 | One step: the epoch bump, the policy row and its revision row, or nothing. |
| `NotificationService.NotificationDatabase.UpdateNotificationPolicy` | internal/app/notification_policies.go:304-405 | One step: revision and epoch move together; an edit that changes nothing rolls back. |
| `NotificationService.NotificationDatabase.ClaimFindingChangeEvent` | internal/app/notification_policy_worker.go:39-56 | Claims exactly a pending or abandoned event and takes a new fence. |
| `NotificationService.FindByKey` | internal/app/remediation_deliveries.go:434-445 | Finds a delivery with the key exactly when there is one. |
| `NotificationService.NotificationDatabase.EvaluateFindingChangeEvent` | internal/app/notification_policy_worker.go:179-306 | The loop over revisions and the fenced completion, all or nothing. |
| `NotificationService.NotificationDatabase.EnqueueFindingDelivery` | internal/app/remediation_deliveries.go:377-476 | Confirmation, replay by key, Jira effect, insert: one step for a request that confirms exactly this delivery, and nothing for any other; a replayed row has the same key and a valid binding. |
| `NotificationService.Confirmation` | internal/app/remediation_deliveries.go:402-424 | A request goes on exactly when it confirms the digest of this delivery, or for Slack when it confirms nothing; a wrong digest is a conflict, and malformed text is invalid except that Jira compares it. |
| `NotificationService.NotificationDatabase.InsertManual` | internal/app/remediation_deliveries.go:425-476 | Inserts exactly when neither the key nor the Jira ticket is taken. |
| `RestoreJournal.Without` | cmd/aspmctl/recovery_restore.go:385-401 | Filtering removes exactly one key. |
| `RestoreJournal.AnnouncedCovers` | cmd/aspmctl/recovery_storage.go:280-330 | Announcing a key covers the bucket both before and after its PUT. |
| `RestoreJournal.RecordedCovers` | cmd/aspmctl/recovery_storage.go:322-328 | Recording a created key covers the bucket after the PUT. |
| `RestoreJournal.TurnedIsAccounted` | cmd/aspmctl/recovery_storage.go:282-330 | Wherever one turn of the loop stops, the journal covers the bucket apart from the object of a refused own PUT whose key it no longer lists. |
| `RestoreJournal.ForgottenIsUncovered` | cmd/aspmctl/recovery_storage.go:302-308 | A new object whose key was struck from the journal makes the destination unrecoverable by that journal. |
| `RestoreJournal.CleaningCovers` | cmd/aspmctl/recovery_restore.go:326-360 | A listed key is known and intact, and each half of its removal leaves the destination covered by a readable journal. |
| `RestoreJournal.EmptyJournalMeansUntouched` | cmd/aspmctl/recovery_restore.go:361-382 | A journal that lists nothing and announces no schema covers only an untouched destination. |
| `Restore.Destination.constructor` | cmd/aspmctl/recovery_restore.go:71-100 | A destination starts with its own contents, no schema and no journal. |
| `Restore.Destination.WriteJournal` | cmd/aspmctl/recovery_config.go:305-341 | The journal afterwards is the old one or the new one. |
| `Restore.Destination.Put` | cmd/aspmctl/recovery_storage.go:293-308 | A conditional PUT never overwrites; it is refused because of an object that was there, or because of its own first attempt when the client sent it again. |
| `Restore.Destination.TurnObject` | cmd/aspmctl/recovery_storage.go:282-330 | One turn, with a fault, a crash or a second attempt possible at each call: the key is announced, struck after a refusal, or recorded, and which of them goes with which bucket. |
| `Restore.Destination.RestoreObject` | cmd/aspmctl/recovery_storage.go:282-330 | The same turn in a covered destination: at every exit the durable journal and the one in memory cover the bucket, apart from the object of a refused own PUT. |
| `Restore.Destination.RestoreObjects` | cmd/aspmctl/recovery_storage.go:280-330 | At every exit the journal covers the bucket, apart from the object of a refused own PUT; on success the bucket is the base plus exactly the backup's objects; sent once, no PUT is refused by itself. |
| `Restore.Destination.RestoreSchema` | cmd/aspmctl/recovery_restore.go:127-146 | A schema is announced before it exists and recorded after. |
| `Restore.Destination.RestoreAll` | cmd/aspmctl/recovery_restore.go:124-163 | Objects, schema and verification keep the journal covering, apart from the object of a refused own PUT; success means verified. |
| `Restore.Destination.ApplyRestore` | cmd/aspmctl/recovery_restore.go:71-164 | From any crash point everything created is covered by a readable journal, apart from the object of a PUT that was refused after its own first attempt took effect and whose key the journal no longer lists, as it never does once the failure is recorded; an occupied destination, or one with anything under a configured prefix, is left alone; without faults the restore succeeds. |
| `Restore.Destination.CleanObject` | cmd/aspmctl/recovery_restore.go:326-360 | Whatever else happened to the bucket, only this key can disappear, and only with the backup's bytes. |
| `Restore.Destination.CleanObjects` | cmd/aspmctl/recovery_restore.go:319-360 | Only listed objects with the backup's bytes go; covered destinations stay covered and are never refused. |
| `Restore.Destination.DropSchema` | cmd/aspmctl/recovery_restore.go:361-378 | The schema is gone before the journal stops announcing it. |
| `Restore.Destination.CleanSchema` | cmd/aspmctl/recovery_restore.go:361-383 | The schema goes only when announced or recorded, then the journal; completion means an untouched destination. |
| `Restore.Destination.CleanupRestore` | cmd/aspmctl/recovery_restore.go:283-383 | A missing, verified or foreign journal changes nothing; otherwise a destination that the journal covers over a base it does not list stays recoverable, completion restores that base exactly, and a fault-free cleanup completes. |
| `Restore.RestoreThenCleanups` | cmd/aspmctl/recovery_restore.go:71-383 | A restore stopped anywhere, then cleanups stopped anywhere, with second attempts at every call: never refused, and the one that completes leaves no schema, no journal, and exactly the original bucket plus the object of a refused own PUT that the restore's journal does not list. Such a refusal needs a call that was sent twice. |
| `Restore.NothingStaysIff` | cmd/aspmctl/recovery_restore.go:283-383 | What stays is the original bucket if and only if no PUT was refused after its own first attempt or the journal still lists its key; otherwise it is exactly one object more. |
| `Restore.ResentPutLeavesItsObject` | cmd/aspmctl/recovery_storage.go:293-308 | The failing run, for every index: the first PUT is stored, sent again and refused, all other calls work; the cleanup completes and the object stays. |
| `ObjectIndex.SortedOnce` | cmd/aspmctl/recovery_config.go:344 | There is only one listing of objects in strict key order, so the sorting algorithm does not matter. |
| `ObjectIndex.CanonicalObjectLines` | cmd/aspmctl/recovery_config.go:343-352 | The buffer is one encoded line per object in key order. |
| `ObjectIndex.ParseObjectLines` | cmd/aspmctl/recovery_config.go:354-382 | The scanning loop computes `Parse`, line limit, carriage returns and missing last newline included. |
| `ObjectIndex.RoundTrip` | cmd/aspmctl/recovery_config.go:343-382 | Parsing the canonical lines of objects with distinct non-empty keys and valid digests returns them sorted, exactly when every line fits the scanner. |
| `ObjectIndex.ParsedIsOrdered` | cmd/aspmctl/recovery_config.go:369-374 | What the parser accepts has strictly increasing keys and valid digests. |
| `ObjectIndex.AcceptedIndexIsCanonical` | cmd/aspmctl/recovery_backup.go:332-341 | Printing an accepted index reproduces its bytes exactly when every line ends in a bare newline. |
| `ObjectTotals.FoldedDigests` | cmd/aspmctl/recovery_storage.go:77-80 | The digests counted are exactly those that occur. |
| `ObjectTotals.FoldIsOrderFree` | cmd/aspmctl/recovery_storage.go:30-108 | Byte and deduplicated-blob totals do not depend on the listing order when a digest has one size. |
| `ObjectTotals.ReadSelectedObjects` | cmd/aspmctl/recovery_storage.go:30-108 | 64-bit sums never overflow; a summary is returned exactly when no limit is exceeded, sorted, with the totals of the listing. |
| `ObjectTotals.SumListing` | cmd/aspmctl/recovery_storage.go:33-104 | The loop's totals are the fold over the listing. |
| `ObjectTotals.ValidateObjectIndex` | cmd/aspmctl/recovery_storage.go:238-278 | 64-bit sums never overflow; accepts exactly the consistent, bounded indexes with the manifest's totals. |
| `ObjectTotals.BackupIndexValidates` | cmd/aspmctl/recovery_storage.go:238-278 | Whenever the objects could be read, the index in key order passes every check of the validation against the totals taken in listing order. |
| `ObjectTotals.LoadIndex` | cmd/aspmctl/recovery_backup.go:327-342 | An index loads exactly when its bytes parse, are canonical, are within the object limit and fit the manifest. |
| `ObjectTotals.BackupThenLoad` | cmd/aspmctl/recovery_backup.go:116-342 | A backup that could be read loads again exactly when each of its lines fits the scanner, with every object, in key order. |
| `Decisions.Chosen` | internal/app/finding_correlations.go:39-82 | States exactly which decisions a merge or split accepts, by disposition, and the decision each becomes. |
| `DecisionLaws.ReadIsOk` | internal/app/finding_decisions.go:81-97 | Every decision read from a good ledger makes sense. |
| `DecisionLaws.PatchReadsBack` | internal/app/finding_decisions.go:78-240 | A successful patch is read back exactly, and no other finding reads differently. |
| `DecisionLaws.DecideReadsBack` | internal/app/finding_correlations.go:375-403 | A merge or split decision is read back with the stored (or fallback) rationale. |
| `DecisionLaws.NoteIsUnread` | internal/app/findings.go:147-187 | A note takes a revision and changes no decision. |
| `DecisionLaws.ManyReadBack` | internal/app/finding_decisions.go:242-330 | A bulk patch is the sequence of its patches. |
| `DecisionLaws.StepRefines` | internal/app/finding_decisions.go:81-240 | Each step on the two tables is the corresponding step on one plain record. |
| `DecisionLaws.LedgerRefinesBook` | internal/app/finding_dispositions.go:35-79 | After any interleaving of patches, bulk patches, merges, splits, notes and imports the lateral read returns exactly the decision last written. |
| `DecisionLaws.EveryDispositionIsApproved` | internal/app/finding_dispositions.go:35-79 | In every reachable state a disposition has an approval of the same kind, scope and expiry. |
| `DecisionLaws.ExpiredSuppressionBlocksPatches` | internal/app/finding_decisions.go:191-196 | A patch that leaves the disposition of a suppressed finding alone goes through if and only if the suppression has not run out and owner, expected revision, workflow and rationale are in order and it is not a rejected no-change. |
| `DecisionLaws.ReassigningFailsAfterExpiry` | internal/app/finding_decisions.go:191-196 | Handing a suppressed finding to another member fails exactly from the moment the suppression runs out. |
| `CorrelationLaws.MergeNewKeepsInv` | internal/app/finding_correlations.go:597-652 | A first merge keeps the registry in order. |
| `CorrelationLaws.MergeIntoKeepsInv` | internal/app/finding_correlations.go:653-699 | A later merge keeps the registry in order. |
| `CorrelationLaws.SplitKeepsInv` | internal/app/finding_correlations.go:855-968 | A split keeps the registry in order. |
| `CorrelationLaws.OneGroupPerFinding` | internal/app/correlation_schema.go:21-41 | In every reachable state a finding is an active member of at most one group, at one place, and that group is active. |
| `CorrelationLaws.EveryGroupIsOk` | internal/app/correlation_schema.go:8-65 | In every reachable state: ordinals 0..n-1, n at most 64, events 1..revision, an active group has its primary and another active member on one asset with distinct sources, a split group has none active. |
| `CorrelationLaws.ReplayChangesNothing` | internal/app/finding_correlations.go:405-422 | However much has happened since, sending a merge or split again changes nothing: its key is taken for good by this request of this group. |
| `CorrelationLaws.OneAnswerPerKey` | internal/app/finding_correlations.go:405-422 | A key belongs to one request of one group. |
| `CorrelationLaws.SplitUndoesMerge` | internal/app/finding_correlations.go:597-652 | A split that hands back the recorded decisions makes both findings read as before the merge and frees both. |
| `FindingService.DisposeStepwise` | internal/app/finding_decisions.go:118-175 | The stepwise assignments compute the patched disposition; suppressing without a scope is refused. |
| `FindingService.PatchStepwise` | internal/app/finding_decisions.go:98-206 | The branches in source order compute `Patched`. |
| `FindingService.FindingDatabase.constructor` | internal/app/correlation_schema.go:3-65 | New tables are empty. |
| `FindingService.FindingDatabase.PatchOne` | internal/app/finding_decisions.go:78-240 | One registry step on a visible finding: the approval and the row, or nothing. |
| `FindingService.FindingDatabase.PatchEach` | internal/app/finding_decisions.go:296-314 | The loop goes through exactly when every finding is visible and every patch goes through after the ones before it. |
| `FindingService.FindingDatabase.BulkPatchFindings` | internal/app/finding_decisions.go:242-330 | One registry step for 1 to 100 different visible findings, or nothing; the exact condition is stated, and the recount of visible findings at the end never fails. |
| `FindingService.FindingDatabase.AddNote` | internal/app/findings.go:147-187 | One registry step on a visible finding, or nothing. |
| `FindingService.FindingDatabase.CorrelationReplay` | internal/app/finding_correlations.go:405-422 | Answers with the group exactly when the key was used for this very request, evidence revisions included, says unseen exactly when the key is free, and conflict otherwise. |
| `FindingService.FindingDatabase.ApplyFindingDecision` | internal/app/finding_correlations.go:375-403 | The approval and the row, or nothing. |
| `FindingService.FindingDatabase.MergeFindings` | internal/app/finding_correlations.go:531-652 | One registry step for a new group. |
| `FindingService.FindingDatabase.ExtendGroup` | internal/app/finding_correlations.go:653-699 | One registry step: the counting loop refuses known members and shared sources. |
| `FindingService.FindingDatabase.SplitFinding` | internal/app/finding_correlations.go:788-978 | One registry step: both decisions, the release and the event, or none. |
| `ReportQueue.StepKeepsInv` | internal/app/report_worker.go:85-135 | Every step keeps fence = attempts at most 3 and the row constraints of both queues. |
| `ReportQueue.AtMostThreeClaims` | internal/app/report_worker.go:85-104 | No job is handed out more than three times, and its fence counts the times. |
| `ReportQueue.ThirdClaimIsTheLast` | internal/app/report_exports.go:289-358 | After the third claim nobody is handed the job again, and over any later run it becomes terminal if and only if some step is a sweep that chooses it while exhausted, or a failure or completion by its live holder. |
| `ReportQueue.TerminalIffEnded` | internal/app/report_worker.go:85-173 | Over any run, after any number of claims, a job becomes terminal if and only if one of the steps ends it. |
| `ReportQueue.SkippedJobKeepsWaiting` | internal/app/report_worker.go:85-135 | A concrete run: a job given back three times waits with no attempt left, through any number of sweeps that do not choose it. |
| `ReportQueue.RunIsOnward` | internal/app/report_worker.go:137-173 | Fences never fall and a terminal job never changes. |
| `ReportQueue.StaleFenceIsPowerless` | internal/app/report_worker.go:106-173 | A worker with an old fence can neither publish, fail nor release the job, now or later. |
| `ReportQueue.OnlyTheHolderPublishes` | internal/app/report_exports.go:360-409 | Content appears only by the holder of the current fence and a live lease. |
| `ReportQueue.ProcessReports` | internal/app/report_worker.go:23-83 | Between two jobs from one queue the other queue was asked. |
| `Surrogates.PairedIsPairedFrom` | internal/app/assessment_validation.go:38-63 | Reading left to right decides exactly whether every surrogate escape belongs to a high-low pair. |
| `Surrogates.UnrepairedIff` | internal/app/assessment_validation.go:30-66 | The decoder repairs nothing exactly when the surrogates pair up and the bytes written as themselves are well-formed UTF-8. |
| `Surrogates.AcceptedIsUnrepairedIff` | internal/app/assessment_validation.go:30-66 | Text that the scanner accepts is read without repair if and only if its bytes are well-formed UTF-8. |
| `Surrogates.ScannerAloneMissesBadBytes` | internal/app/assessment_validation.go:30-66 | The literal 22 FF 22 passes the scanner and is repaired. |
| `Surrogates.GuardedContextIsExact` | internal/app/http.go:790-801 | In a request body that passed the UTF-8 check, the scanner accepts a literal if and only if the decoder reads it without repair. |
| `Surrogates.DecodedIsText` | internal/app/assessment_validation.go:36-37 | Whatever is decoded consists of scalar values, with U+FFFD among them whenever something was repaired. |
| `Surrogates.PlainTextReadsBack` | internal/app/assessment_validation.go:36-37 | Well-formed text without escapes decodes to characters that encode back to its bytes. |
| `Surrogates.ScanContext` | internal/app/assessment_validation.go:30-66 | For any input every index read is in bounds, and it accepts exactly the JSON string literals in which every surrogate escape belongs to a high-low pair. |
| `Surrogates.ScanUnit` | internal/app/assessment_validation.go:42-61 | One escape, with the low unit after a high one: refused exactly when the pairing is broken there, and otherwise the rest decides. |
| `Surrogates.ScanLow` | internal/app/assessment_validation.go:54-61 | The bytes after a high unit are accepted exactly when they are a low unit. |

## Left out

- Routing, request decoding, sessions, password hashing and OIDC: single-branch checks around libraries.
- Real sockets, TLS, S3 and pg_dump/pg_restore: atomic steps that work, fail, or have an unknown outcome.
- Cryptography and the bytes of JSON: digests are injective, and JSON columns are trees of values; the payload and target encoders and decoders are modelled on those trees.
- URL and host validation, issue-key patterns and the missing-field diagnostics of Jira: predicates or booleans.
- Import claiming and report parsers: a claimed import with its fence is an input of `Reconcile`.
- Observation records beyond their identity and label, candidate locations, and how a content digest is computed: they feed no decision that is modelled.
- Replay rules of enqueuing an assessment, evidence digests and prompt construction: one lookup by key each.
- Resolve and readAIConfiguration expiry re-check after the read: the resolver's check is modelled at one instant.
- Retention, archive, posture and SLA queries, the web client, installers and other migrations.
- ObjectIndex.CanonicalObjectLines: sorts a value rather than its slice in place, because sorting is a library call whose result `SortedOnce` determines.
- Reconciliation.FindingStore.Reconcile: takes the row check of the claimed import as a parameter, and import runs are assumed recorded once.
- AssessmentPoolLaws.LiveIoNeverExceedsLimit: assumes that a worker reads its clock no later than the tick the database reads for the marker, the condition that `LocalDeadlineIsCovered` shows to be exact.
- Restore.Destination.ApplyRestore: a crash is the death of the process, not of the machine, because the journal's rename is not followed by a sync of its directory; assumes exclusive use of the selected prefixes and schema, and a journal within the 4 MiB that can be read back.
- RestoreJournal.AnnouncedCovers: identifier formats, canonical bytes and the timestamp of the journal are not modelled.
- Notifications.Evaluate order: policies are evaluated in any order, of which the query's order by identifier is one.
- Decisions: expiry times are microseconds, as the columns store them.
- ReportQueue.ProcessReports: the loop ends when its sequence of answers does, which stands for its context.
