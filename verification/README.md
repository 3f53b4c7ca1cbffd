# GrowthOS verification model

GrowthOS is a set of at-least-once workers around an idempotent outbox. This
project models its leased, crash-recoverable state machines in Dafny and proves
what they promise over every run: exactly-once effects, lease exclusion,
governance of promotions, complete ledgers, and agreement between the in-memory
repositories and what a plain scan, a reference definition or the SQL form of
the same operation would say.

How the model is built:

- Each repository method is one atomic step, as its Postgres form is one
  transaction. Each `await` of a worker is a point where it may crash, fail or
  interleave with others. Time is an integer; ids and claim tokens are fresh
  natural numbers.
- In-memory repositories are classes over the same Maps, indexes and counters
  as the source. Their methods are proved against specification functions on
  values, and the results are lemmas about those functions.
- Workers are state machines over labelled steps, for any number of workers.
  The outbox publisher and the learning, signal and workflow workers are
  written out as methods over the repository classes as well. At every await of
  these methods other workers, producers, founders and callbacks may act on the
  same repositories and time may pass; every execution, faults included, is
  proved to be a run of the state machine.
- Calls into other systems (n8n, message bus, language model, provisioning
  clients, durable executor) are parameters that say how the call ended.

Files, by subject:

| subject | files |
|---|---|
| shared | `Text`, `Steps`, `Listing`, `KeyIndex`, `Splitting` |
| outbox | `Outbox` |
| external actions | `StableJson`, `ExternalActions`, `ExternalActionsRepository`, `DispatchProtocol`, `DispatchStore`, `PublisherRuns`, `PublisherTurns`, `OutboxPublisher` |
| evidence-gated promotion | `PromotionGate`, `LearningProposals`, `LearningProposalsRepository`, `PlaybookVersions`, `LearningProtocol`, `PromotionOnce`, `PromotionBounds`, `LearningWorker` |
| signal inbox | `SignalInbox`, `SignalIngestion`, `SignalProtocol`, `SignalWorker` |
| experiments | `EvidenceSummary`, `Experiments` |
| workflow runs | `WorkflowRuns`, `WorkflowProtocol`, `WorkflowEvents`, `WorkflowWorker` |
| skills | `SkillFrontmatter` |

## Main results

1. Promotion: `LearningProtocol.GovernanceSafety`, `PromotionGate.DecisionIff`, `LearningProtocol.PromotionsAreAnnounced`,
   `PromotionOnce.OneVersionPerCritique`, `PromotionBounds.OneVersionIff`, `LearningProposals.Fencing`,
   `PlaybookVersions.VersionsAreOrdinals`.
2. External actions: `DispatchProtocol.NoActionIsLost`, `DispatchProtocol.UnconsumedRowIsRecoverable`,
   `ExternalActions.HistoryShape` with `ExternalActions.ReachableIsConsistent`, `ExternalActions.ClaimsAreSpaced`,
   `ExternalActions.OnlyTheHolderReports`, `StableJson.StableJsonIsCanonical`, `PublisherRuns.WentKeepsPromise`,
   `OutboxPublisher.OutboxPublisher.HandleRow`.
3. Signals: `SignalProtocol.ProcessedSignalsAreRoutedOnce`, `SignalInbox.LeaseExcludes`, `SignalInbox.NothingIsLost`.
4. Workflow runs: `WorkflowProtocol.TerminalRunHasItsEvent`, `WorkflowProtocol.OnlyLateDeliveriesSpeak`,
   `WorkflowEvents.AlwaysNamedIffUnambiguous`, `WorkflowEvents.BothEventsIffVerdictsDiffer`,
   `WorkflowEvents.OrderlyDeliveriesLeaveOneEvent`, `WorkflowRuns.KeyIsSharedIff`.
5. Experiments: `Experiments.ReachableStoreIsSound`, `Experiments.AssignmentsAreSticky`,
   `Experiments.AnsweredRightlyIffUnshared`, `EvidenceSummary.FormsAgree`, `EvidenceSummary.FormsAgreeIff`.
6. Skills: `SkillFrontmatter.RoundTripsIfColonFree`.

## Where the code does less than its comments say

- `playbookRepository.create` is not fenced. Every run of the workers has at
  most one version per critique exactly when no critique is delivered in two
  ways and creates come within the lease of their claim
  (`PromotionBounds.OneVersionIff`, for any policy that can be convinced). Each
  condition alone can fail: `LateCreateDuplicates` has one delivery and a create
  one millisecond too late, `TwoOffersDuplicate` has two deliveries and every
  create in the moment of its claim.
- Two deliveries of a critique differ when their artifact kinds resolve to
  different playbook types, or when their critique ids differ in white space at
  the end: the proposal's key is trimmed, the version's creator and the update
  event's key are not (`TwoSpellings`).
- The workflow state of a run is decided once, but the outbox can hold both its
  completed and its failed event: two workers race (`RaceLeavesBoth`), or a
  single worker stops between its event and its swap and the request is
  delivered again (`RedeliveryLeavesBoth`). Among requests whose keys do not
  clash (next point) it holds both exactly when two deliveries of the workflow
  concluded with different verdicts (`BothEventsIffVerdictsDiffer`). With one delivery at a time, none of which
  stops between event and swap, there is at most one
  (`OrderlyDeliveriesLeaveOneEvent`).
- The key of a terminal event need not name its run. It is shared by another
  request exactly when its text holds `:<word>:orchestrator:` or
  `:<word>:worker-callback:` at a second place (`KeyIsSharedIff`). Every
  terminal run is named by an event, in every run of the protocol, exactly when
  no two delivered requests for different workflows clash this way
  (`AlwaysNamedIffUnambiguous`); for two that do, the second workflow completes
  without a row that names it (`ClashHidesARun`). Colon-free dedupe keys never
  clash.
- An entity can be handed another entity's assignment exactly when its joined
  text `type:id` can be cut at another colon, with both parts trimmed and not
  empty (`AnsweredRightlyIffUnshared`, `OtherEntityAnswers`). The same joined
  texts make the entity count of the in-memory summary too small. Colliding
  external ids of signals are harmless: ingest scans again.
- Playbook versions have gaps: the counter moves before the record is parsed,
  so a create refused for an empty name or creator uses a number up
  (`RefusedCreateLeavesGap`). A version is the ordinal of its create, refused
  ones included (`VersionsAreOrdinals`), and the numbers are 1, 2, 3, ...
  exactly when no create was refused before an accepted one
  (`GapFreeIffNoneRefused`).
- A skill id with a colon does not survive printing and parsing; every other
  printable skill does.
- An empty `externalId` never deduplicates in memory, while the Postgres unique
  index covers it and the lookup after the conflict skips it, so the second such
  signal of a source throws. The two forms of ingest agree on every other call
  (`IngestFormsAgreeIff`).
- The in-memory summary compares metric names as given; the Postgres one trims
  them and rejects empty ones. `FormsAgreeIff` says exactly when the two answer
  alike on names as they are given.
- The request digest of an external action leaves out the tenant.

## Model

| member | source | states |
|---|---|---|
| `Text.DecimalInjective` | apps/worker-signal-router/src/signal-ingestion-worker.ts:126-126 | ids printed in decimal are told apart by their text |
| `Text.JoinIsSharedIff` | packages/db/src/adaptive-control-plane-repository.ts:940-947 | a joined text has a second pair of trimmed, non-empty parts exactly when it can be cut at another colon |
| `Outbox.SchemasExcludeColon` | packages/db/src/contracts.ts:3-11 | a valid tenant id or event type holds no colon |
| `Outbox.JoinedKeyInjective` | packages/db/src/outbox-repository.ts:23-24 | the colon-joined index key identifies tenant, type and key |
| `Outbox.FirstEnqueueIsStored` | packages/db/src/outbox-repository.ts:31-55 | a new command becomes the single row with its identity, at the end of the log |
| `Outbox.ReplayIsAbsorbed` | packages/db/src/outbox-repository.ts:31-55 | whatever is enqueued later, the first row of an identity stays its only row, unchanged; a replay changes nothing |
| `Outbox.ConsumeKeepsWellFormed` | packages/db/src/outbox-repository.ts:57-74 | consuming keeps ids dense and identities unique and changes nothing but the consumption time |
| `Outbox.IndexAgreesWithScan` | packages/db/src/outbox-repository.ts:27-41 | the key index finds exactly what a scan of the log finds |
| `Outbox.IndexedRowsAreWellFormed` | packages/db/src/outbox-repository.ts:26-55 | store and index in bijection mean dense ids 1..n and one row per identity |
| `Outbox.UnconsumedIsOrderedPrefix` | packages/db/src/outbox-repository.ts:76-86 | the listing is strictly increasing, holds only the tenant's unconsumed rows, is cut only by the limit, and skips no earlier row |
| `Outbox.InMemoryOutboxRepository.Enqueue` | packages/db/src/outbox-repository.ts:31-55 | the log becomes its deduplicated extension; invalid input changes nothing; the row returned carries the command's identity |
| `Outbox.InMemoryOutboxRepository.MarkConsumed` | packages/db/src/outbox-repository.ts:57-74 | exactly that row is consumed; unknown and foreign ids are refused without effect |
| `Outbox.InMemoryOutboxRepository.ListUnconsumed` | packages/db/src/outbox-repository.ts:76-86 | returns the listing of the log |
| `StableJson.QuoteUnique` | packages/db/src/external-actions-repository.ts:245-254 | a quoted string is read back uniquely from any text it begins |
| `StableJson.ValueUnique` | packages/db/src/external-actions-repository.ts:245-254 | a serialized value is read back uniquely, up to key order, from any text it begins |
| `StableJson.StableJsonIsCanonical` | packages/db/src/external-actions-repository.ts:245-254 | two JSON values have the same text exactly when equal up to key order at every depth |
| `StableJson.DigestDetectsDifferentRequests` | packages/db/src/external-actions-repository.ts:256-269 | digest inputs agree exactly when the requests mean the same |
| `ExternalActions.HistoryShape` | packages/db/src/external-actions-repository.ts:461-481 | starts 1..n once each, at most one report per attempt, one terminal entry exactly in a terminal state |
| `ExternalActions.NextKeepsConsistent` | packages/db/src/external-actions-repository.ts:609-887 | every operation keeps: the ledger rebuilds state and attempts, lease fields exactly in dispatching, retry time exactly in retry_scheduled |
| `ExternalActions.ReachableIsConsistent` | packages/db/src/external-actions-repository.ts:509-887 | the same for every action after any sequence of operations |
| `ExternalActions.SettledIsStable` | packages/db/src/external-actions-repository.ts:609-887 | settled stays settled with the same attempt count; completed or failed never changes again |
| `ExternalActions.CallbackOnce` | packages/db/src/external-actions-repository.ts:816-887 | the first callback that takes effect closes the action; every later one changes nothing |
| `ExternalActions.ReplayIsRecognised` | packages/db/src/external-actions-repository.ts:509-560 | the stored digest matches a request exactly when it means the same, whatever happened since |
| `ExternalActions.ClaimsAreSpaced` | packages/db/src/external-actions-repository.ts:609-660 | between two successive claims the first lease had run out, or a retry its holder scheduled in between had come due |
| `ExternalActions.OnlyTheHolderReports` | packages/db/src/external-actions-repository.ts:662-814 | a report takes effect only after the reporter's own claim with nothing taking effect in between |
| `ExternalActions.ClaimStartsIff` | packages/db/src/external-actions-repository.ts:609-660 | a claim starts the next attempt, with lease and ledger entry, exactly when the action is not settled, waits for no retry time and is under no live lease; otherwise nothing changes |
| `ExternalActions.ReportLeaves` | packages/db/src/external-actions-repository.ts:662-814 | a report takes effect exactly for the holder, and leaves the state, retry time, error code and the one ledger entry that belong to it |
| `ExternalActions.CallbackCloses` | packages/db/src/external-actions-repository.ts:816-887 | a callback closes exactly an action nothing has closed: completed if it says so, otherwise failed with its code |
| `ExternalActions.SqlGuardAgrees` | packages/db/src/external-actions-repository.ts:1189-1244 | the SQL guard accepts what the in-memory code claims exactly unless a requested row has a retry time ahead, which no reachable row has |
| `ExternalActions.SqlClaimIsAtomic` | packages/db/src/external-actions-repository.ts:1169-1244 | read, decide, guarded update acts as one atomic claim on the row updated, or refuses without effect |
| `ExternalActionsRepository.ScanByAction` | packages/db/src/external-actions-repository.ts:431-459 | the action index finds what a scan by tenant and action id finds |
| `ExternalActionsRepository.ScanByIdempotency` | packages/db/src/external-actions-repository.ts:431-459 | the idempotency index finds what a scan by tenant and key finds |
| `ExternalActionsRepository.ReportTells` | packages/db/src/external-actions-repository.ts:662-814 | the events of a report tell exactly what became of the action: dispatched, retry scheduled, or failed with an incident |
| `ExternalActionsRepository.OutcomeTells` | packages/db/src/external-actions-repository.ts:816-887 | the events of a callback tell exactly what became of the action: completed, or failed with an incident |
| `ExternalActionsRepository.InMemoryExternalActionsRepository.EnqueueRequested` | packages/db/src/external-actions-repository.ts:509-607 | a replay returns the stored action unchanged, a conflict is refused, a new request adds exactly one requested action |
| `ExternalActionsRepository.InMemoryExternalActionsRepository.ClaimDispatch` | packages/db/src/external-actions-repository.ts:609-660 | the named action, and no other, is claimed, or one of the refusals with its reason |
| `ExternalActionsRepository.InMemoryExternalActionsRepository.RecordDispatchAccepted` | packages/db/src/external-actions-repository.ts:662-714 | the holder's acceptance settles the action; others are refused; settled actions are returned as they are; a dispatched event is emitted exactly when the action became dispatched |
| `ExternalActionsRepository.InMemoryExternalActionsRepository.ScheduleDispatchRetry` | packages/db/src/external-actions-repository.ts:716-767 | the holder's retry frees the lease and sets the retry time; others are refused; its event is emitted exactly when the action came to wait for a retry |
| `ExternalActionsRepository.InMemoryExternalActionsRepository.FailDispatch` | packages/db/src/external-actions-repository.ts:769-814 | the holder's failure closes the action; failed event and incident are emitted exactly when the action became failed |
| `ExternalActionsRepository.InMemoryExternalActionsRepository.RecordOutcome` | packages/db/src/external-actions-repository.ts:816-887 | a callback is applied once, recognised when repeated, refused when it contradicts a closed action; completed event, or failed event and incident, exactly when the action became so |
| `DispatchProtocol.NoActionIsLost` | apps/worker-outbox-publisher/src/outbox-publisher.ts:301-382 | in every reachable state a dispatch row is unconsumed or its action settled, and external calls never exceed the attempts in the ledger |
| `DispatchProtocol.UnconsumedRowIsRecoverable` | apps/worker-outbox-publisher/src/outbox-publisher.ts:265-282 | from every reachable state one restarted worker can bring an unconsumed row to a settled action and consumption |
| `OutboxPublisher.ConsumptionIsJustified` | apps/worker-outbox-publisher/src/outbox-publisher.ts:247-299 | every consumption follows that row's publication or its action's settlement, and its incident record where it has one |
| `OutboxPublisher.OutboxPublisher.PersistOperationalState` | apps/worker-outbox-publisher/src/outbox-publisher.ts:173-245 | incident and health records are written in order before the row may leave; it throws exactly where a key is missing or a write it needs throws |
| `OutboxPublisher.OutboxPublisher.DispatchN8nAction` | apps/worker-outbox-publisher/src/outbox-publisher.ts:301-382 | whatever others do at each await: no claim exactly without configuration, valid ids or a lease; deferred, settled or started as the action's fields say at the claim; n8n called exactly after a granted claim; its acceptance leaves a dispatch_accepted entry, its refusal a dispatch_failed entry with the code, a retryable answer a retry at report time plus backoff, for that attempt; left alone, that is what the action is in the end and no other action changes |
| `OutboxPublisher.OutboxPublisher.PublishPendingForTenant` | apps/worker-outbox-publisher/src/outbox-publisher.ts:247-299 | rows are handled in id order; a row changes only if this batch consumed it or others marked it meanwhile; the count is the number of rows this batch consumed; an exception leaves later rows to others and needs a fault or an intruder; the whole call is a protocol run |
| `OutboxPublisher.OutboxPublisher.Perform` | apps/worker-outbox-publisher/src/outbox-publisher.ts:247-382 | any step of any publisher, callback, producer or new action, made on the repositories, is that step of the protocol |
| `OutboxPublisher.OutboxPublisher.HandleRow` | apps/worker-outbox-publisher/src/outbox-publisher.ts:265-299 | one turn, others acting at every await, is a protocol run in which this worker's own steps follow one of seven scripts; the same of claim, answer and ledger as for the dispatch; consumed exactly when settled or finally reported and marked, or published and marked; without faults and left alone, consumed unless n8n, a lease or a retry time puts it off |
| `OutboxPublisher.QuietCount` | apps/worker-outbox-publisher/src/outbox-publisher.ts:247-299 | left alone, a batch newly consumes exactly its consumed rows, and the count it reports is their number |
| `PublisherRuns.CallFollowsClaim` | apps/worker-outbox-publisher/src/outbox-publisher.ts:321-343 | among the worker's own steps the provider call is the third, straight after the claim, and there is at most one |
| `PublisherTurns.DispatchTurned` | apps/worker-outbox-publisher/src/outbox-publisher.ts:301-382 | in any run in which a worker's steps follow a script, the moments of its claim and of its report are there, and what they found and left is what the way says, by fields and ledger entries |
| `PublisherTurns.QuietTurn` | apps/worker-outbox-publisher/src/outbox-publisher.ts:301-382 | left alone, a script takes its action from its fields before to its fields after, and no other action changes; a report is refused only for a retry that does not lie ahead |
| `PublisherTurns.AnswerStays` | packages/db/src/external-actions-repository.ts:461-481 | the entry of the answer stays in the action's ledger whatever happens afterwards |
| `PublisherRuns.WentKeepsPromise` | apps/worker-outbox-publisher/src/outbox-publisher.ts:265-382 | after anything a publisher and everyone else did since a good state, every consumed dispatch row's action is settled in the repository |
| `DispatchStore.StoredNamesAreUnique` | packages/db/src/external-actions-repository.ts:431-459 | two stored actions of a tenant never share their action id |
| `DispatchStore.DispatchRowsAreUnique` | packages/db/src/external-actions-repository.ts:592-605 | rows enqueued under their action's tenant and idempotency key leave each action at most one dispatch row |
| `PromotionGate.PromotionIsMonotone` | packages/core/src/adaptive-gtm-harness.ts:140-212 | better evidence within range never withdraws a promotion, nor an approval request that is not approved meanwhile |
| `PromotionGate.FavourableIff` | packages/core/src/adaptive-gtm-harness.ts:92-212 | promote or requires_approval exactly when evidence and policy are in range and all gates pass; which of the two follows from risk and approval (the gates in terms of the measurements: the next three rows) |
| `PromotionGate.DecisionIff` | packages/core/src/adaptive-gtm-harness.ts:140-212 | exactly when each of the four decisions is made, from the measured fields alone: reject for a breached guardrail or, with enough evidence, too little gain in the direction asked for; continue for too little evidence; otherwise promote, or approval where the risk asks for it |
| `PromotionGate.OnlyBetterIsFavoured` | packages/core/src/adaptive-gtm-harness.ts:147-151 | a candidate that is not strictly better than the baseline in its direction is neither promoted nor sent for approval |
| `PromotionGate.LiftGateIff` | packages/core/src/adaptive-gtm-harness.ts:140-212 | for a baseline of at least 1e-9 in size and all other gates passed, the decision is favourable exactly when the gain in the direction asked for is at least the policy's share of the baseline |
| `PromotionGate.MirrorKeepsDecision` | packages/core/src/adaptive-gtm-harness.ts:140-212 | flipping the direction while negating both metrics keeps lift and decision |
| `PromotionGate.ExternalActionsNeedHealthOrFallback` | packages/core/src/adaptive-gtm-harness.ts:268-346 | external actions are allowed exactly for a healthy component or a fallback with attempts left, never past a breached guardrail |
| `PromotionGate.HealingIff` | packages/core/src/adaptive-gtm-harness.ts:268-346 | exactly when each next state and each action is chosen, from the health fields and the policy |
| `PromotionGate.WaitsAreBoundedAndMonotone` | packages/core/src/adaptive-gtm-harness.ts:268-346 | retry waits never shrink and stay between the base and 256 times the base |
| `PromotionGate.QuarantineAfterExactWait` | packages/core/src/adaptive-gtm-harness.ts:268-346 | quarantine comes exactly at the attempt limit, after the stated closed-form total wait |
| `LearningProposals.AttemptKeepsShaped` | packages/db/src/adaptive-control-plane-repository.ts:1428-1588 | every accepted call keeps the nullable fields in step with the status |
| `LearningProposals.TokenLastsUntilTouched` | packages/db/src/adaptive-control-plane-repository.ts:1508-1567 | while a claim's token is stored nothing has been accepted since that claim |
| `LearningProposals.Fencing` | packages/db/src/adaptive-control-plane-repository.ts:1508-1567 | if a claim's token marks the promotion, no call was accepted in between |
| `LearningProposals.PromotionIsFinal` | packages/db/src/adaptive-control-plane-repository.ts:1537-1588 | after promotion the status stays promoted or rolled back with the same version |
| `LearningProposals.PromotedVersionIsWrittenOnce` | packages/db/src/adaptive-control-plane-repository.ts:1537-1567 | two accepted promotions are the same call, and its version is what stays |
| `LearningProposals.TerminalIsAbsorbing` | packages/db/src/adaptive-control-plane-repository.ts:1428-1588 | rejected and rolled-back proposals never change |
| `LearningProposals.DecisionLeads` | packages/db/src/adaptive-control-plane-repository.ts:1428-1463 | exactly an open, unleased proposal takes a decision, and each decision leads to its own status with the evidence stored |
| `LearningProposals.LeaseIsExact` | packages/db/src/adaptive-control-plane-repository.ts:1508-1567 | until the lease runs out exactly its own token promotes, and nobody claims or evaluates; from then on anybody may |
| `LearningProposals.WayToPromotion` | packages/db/src/adaptive-control-plane-repository.ts:1428-1588 | from any open proposal decision, approval where asked for, claim and mark are accepted one after the other and leave version, decision and approver; the promotion can be rolled back |
| `LearningProposals.SqlLeaseGuardAgrees` | packages/db/src/adaptive-control-plane-repository.ts:571-580 | the SQL lease guard agrees with the in-memory one exactly when no token stands without an expiry, as in every stored row |
| `LearningProposalsRepository.ScanByKey` | packages/db/src/adaptive-control-plane-repository.ts:1318-1348 | the key index finds what a scan by tenant and proposal key finds |
| `LearningProposalsRepository.InMemoryLearningProposalRepository.Create` | packages/db/src/adaptive-control-plane-repository.ts:1336-1381 | the first record of a trimmed key is returned for ever; otherwise exactly one new record is added |
| `LearningProposalsRepository.InMemoryLearningProposalRepository.GetByProposalKey` | packages/db/src/adaptive-control-plane-repository.ts:1391-1398 | finds the tenant's proposal with that very key, or there is none |
| `LearningProposalsRepository.InMemoryLearningProposalRepository.RecordEvaluation` | packages/db/src/adaptive-control-plane-repository.ts:1428-1463 | the named proposal is re-evaluated, or refused while terminal or leased |
| `LearningProposalsRepository.InMemoryLearningProposalRepository.ApproveAndEnqueue` | packages/db/src/adaptive-control-plane-repository.ts:1474-1506 | approval and its event happen together or not at all |
| `LearningProposalsRepository.InMemoryLearningProposalRepository.ClaimPromotion` | packages/db/src/adaptive-control-plane-repository.ts:1508-1535 | a claim of an approved, unleased proposal takes a token no claim had before |
| `LearningProposalsRepository.InMemoryLearningProposalRepository.MarkPromoted` | packages/db/src/adaptive-control-plane-repository.ts:1537-1567 | only the live token's holder promotes |
| `LearningProposalsRepository.InMemoryLearningProposalRepository.MarkRolledBack` | packages/db/src/adaptive-control-plane-repository.ts:1569-1588 | only a promoted proposal is rolled back |
| `PlaybookVersions.DoToOne` | packages/db/src/playbook-versions-repository.ts:131-164 | a call moves the counter of its own tenant and type only, once for every create, accepted or refused |
| `PlaybookVersions.DoKeepsKept` | packages/db/src/playbook-versions-repository.ts:131-164 | every call keeps the versions of each tenant and type increasing and below the counter |
| `PlaybookVersions.RetireKeepsVersions` | packages/db/src/playbook-versions-repository.ts:158-164 | retiring a record changes no number |
| `PlaybookVersions.RetireMarksOne` | packages/db/src/playbook-versions-repository.ts:158-164 | exactly the tenant's own record of that id, not retired yet, gets the time, and every other record stays as it is |
| `PlaybookVersions.VersionsAreOrdinals` | packages/db/src/playbook-versions-repository.ts:131-156 | over every sequence of calls a version is the ordinal of its create, refused ones included |
| `PlaybookVersions.GapFreeIffNoneRefused` | packages/db/src/playbook-versions-repository.ts:131-156 | the versions are 1, 2, 3, ... exactly when no create was refused before an accepted one |
| `PlaybookVersions.RefusedCreateLeavesGap` | packages/db/src/playbook-versions-repository.ts:131-156 | after a create without a name the first version is 2 |
| `PlaybookVersions.NewestReverses` | packages/db/src/playbook-versions-repository.ts:107-129 | on increasing versions, sorting by descending version is the insertion order backwards, whatever is filtered out |
| `PlaybookVersions.InMemoryPlaybookVersionsRepository.Create` | packages/db/src/playbook-versions-repository.ts:131-156 | a new record takes a number above all of its tenant and type; an empty name or creator is refused after the counter moved |
| `PlaybookVersions.InMemoryPlaybookVersionsRepository.ListAll` | packages/db/src/playbook-versions-repository.ts:122-129 | exactly the records of the tenant and type, newest first, in strictly descending versions |
| `PlaybookVersions.InMemoryPlaybookVersionsRepository.GetActive` | packages/db/src/playbook-versions-repository.ts:107-120 | the highest version not retired, or all are retired |
| `PlaybookVersions.InMemoryPlaybookVersionsRepository.Retire` | packages/db/src/playbook-versions-repository.ts:158-164 | exactly the tenant's own unretired record is retired |
| `LearningProtocol.GovernanceSafety` | apps/worker-learning/src/learning-worker.ts:366-488 | approved, promoted and rolled-back proposals passed every gate on evidence in range, their candidate strictly better by the share the policy asks for, were decided promote or requires_approval, and have a human approval where the policy asks for one |
| `LearningProtocol.PromotionsAreAnnounced` | apps/worker-learning/src/learning-worker.ts:490-623 | a promoted proposal names a version made for its critique and that version's update event is already in the outbox |
| `PromotionOnce.OneVersionPerCritique` | apps/worker-learning/src/learning-worker.ts:490-590 | with timely creates and one delivery per critique there is at most one version per critique, and event and promoted reference both name it |
| `PromotionBounds.OneVersionIff` | apps/worker-learning/src/learning-worker.ts:490-590 | every run on a feed of deliveries has at most one version per critique exactly when no critique is delivered in two ways and creates come within the lease of their claim |
| `PromotionBounds.LateCreateDuplicates` | apps/worker-learning/src/learning-worker.ts:549-566 | with one delivery on offer, a create one millisecond after lease expiry can give a second version, for any tenant, key and critique |
| `PromotionBounds.TwoOffersDuplicate` | apps/worker-learning/src/learning-worker.ts:516-547 | with two deliveries on offer, a second version can come with every create in the moment of its claim |
| `PromotionBounds.TwoSpellings` | apps/worker-learning/src/learning-worker.ts:326-337 | two ids that differ in white space at the end share a proposal and are different deliveries |
| `PromotionBounds.DefaultPolicyPromotes` | packages/core/src/adaptive-gtm-harness.ts:92-99 | the default policy can be convinced |
| `LearningWorker.NewestIsFound` | apps/worker-learning/src/learning-worker.ts:516-523 | the newest-first listing of one type shows exactly the version the protocol finds among all versions |
| `LearningWorker.UpdateIdInjective` | apps/worker-learning/src/learning-worker.ts:602-605 | update events of differently spelled critique ids have different outbox identities |
| `LearningWorker.EmittingKeepsMatch` | apps/worker-learning/src/learning-worker.ts:592-623 | enqueueing an update leaves every other update as it was, and repeating it changes nothing |
| `LearningWorker.LearningWorker.Perform` | apps/worker-learning/src/learning-worker.ts:319-733 | any step of any worker, founder or clock, made on the repositories, is that step of the protocol |
| `LearningWorker.LearningWorker.TryRecord` | apps/worker-learning/src/learning-worker.ts:625-669 | the decision is recorded before anything is promoted, and only a stored approval makes the proposal eligible; left alone, exactly an open proposal the gate promotes becomes eligible |
| `LearningWorker.LearningWorker.ObtainVersion` | apps/worker-learning/src/learning-worker.ts:516-566 | the critique's earlier version is found and reused, or one is created, in this worker's own steps; a throw leaves a prefix of them |
| `LearningWorker.LearningWorker.Announce` | apps/worker-learning/src/learning-worker.ts:568-587 | true only when the update event is stored and the proposal is promoted to this version, whatever others do in between |
| `LearningWorker.LearningWorker.PromotePlaybookChange` | apps/worker-learning/src/learning-worker.ts:490-590 | claim, find or create, publish, mark, with faults, waiting and other workers at every await, is a protocol run; a version is returned only when the proposal names it and its event is stored; when nothing throws and nobody else acts an approved, unleased proposal is promoted |
| `LearningWorker.LearningWorker.ProcessFromCritique` | apps/worker-learning/src/learning-worker.ts:319-420 | nothing happens for an empty id, an approving verdict or an artifact without a playbook; otherwise store under the critique's key, announce, decide, promote: a protocol run, others acting at every await; a version is returned only on evidence and when the proposal names it; when nothing throws and nobody else acts, exactly when the evidence convinces the gate about the stored or new proposal, open and unleased |
| `LearningWorker.LearningWorker.ProcessApprovedProposal` | apps/worker-learning/src/learning-worker.ts:422-488 | the whole call, others acting at every await, is a protocol run, and promotes only a proposal that was approved, on evidence read again; when nothing throws and nobody else acts it promotes exactly an approved, unleased proposal whose evidence convinces the gate |
| `LearningWorker.ExecutionKeepsInvariants` | apps/worker-learning/src/learning-worker.ts:319-733 | every execution keeps governance and the announcement of promotions, and a disciplined one keeps one version per critique |
| `LearningWorker.OneRecordPerCritique` | apps/worker-learning/src/learning-worker.ts:490-590 | there the playbook store holds at most one record for each proposal, whatever its type or spelling |
| `Listing.ListIsOrderedPrefix` | packages/db/src/signal-events-repository.ts:194-205 | filter, sort, slice gives the ordered prefix of the records asked for |
| `SignalInbox.ExternalKeysCollide` | packages/db/src/signal-events-repository.ts:121-127 | the joined key of two different (source, external id) pairs can be the same text |
| `SignalInbox.DuplicateMeansStored` | packages/db/src/signal-events-repository.ts:132-148 | a duplicate is found exactly when a stored record has the same tenant, source and non-empty external id |
| `SignalInbox.IngestFormsAgreeIff` | packages/db/src/signal-events-repository.ts:312-362 | the in-memory and the Postgres ingest answer and store alike exactly unless the external id is empty and such a signal of the source is stored |
| `SignalInbox.ClaimIsFifo` | packages/db/src/signal-events-repository.ts:184-205 | a claim takes the smallest claimable ids and never one under a live lease |
| `SignalInbox.ClaimFindsEligible` | packages/db/src/signal-events-repository.ts:184-226 | by record fields: handed out are exactly the tenant's unprocessed signals of the type whose lease is absent or has run out, but for those behind a full limit of smaller ids |
| `SignalInbox.NothingIsLost` | packages/db/src/signal-events-repository.ts:184-278 | after any calls an unprocessed signal without a live lease is handed out by every valid claim whose limit is not smaller than the inbox |
| `SignalInbox.CallChangesFields` | packages/db/src/signal-events-repository.ts:129-278 | what each call does to each stored record, by its fields |
| `SignalInbox.ReachableIsSound` | packages/db/src/signal-events-repository.ts:129-278 | over every sequence of calls ids increase, lease fields stand together and never on a processed signal, and no two records share a deduplicating identity |
| `SignalInbox.ProcessedIsFinal` | packages/db/src/signal-events-repository.ts:235-254 | a processed signal never changes and is never claimed again |
| `SignalInbox.LeaseExcludes` | packages/db/src/signal-events-repository.ts:184-278 | until its expiry or its owner's release a leased signal is handed to nobody, in any run |
| `SignalInbox.InMemorySignalEventsRepository.IngestSignal` | packages/db/src/signal-events-repository.ts:129-166 | deduplicates as a linear scan does, whatever the joined keys collide with |
| `SignalInbox.InMemorySignalEventsRepository.ClaimUnprocessed` | packages/db/src/signal-events-repository.ts:184-226 | leases exactly the listed records in place and returns them as leased; who is listed: `SignalInbox.ClaimFindsEligible` |
| `SignalInbox.InMemorySignalEventsRepository.MarkProcessed` | packages/db/src/signal-events-repository.ts:235-254 | marks exactly the tenant's named unprocessed records and frees their leases |
| `SignalInbox.InMemorySignalEventsRepository.ReleaseClaims` | packages/db/src/signal-events-repository.ts:256-278 | frees exactly the owner's leases on the named unprocessed records |
| `SignalIngestion.KindOf` | apps/worker-signal-router/src/signal-ingestion-worker.ts:102-111 | a kind is never empty |
| `SignalIngestion.KindIsTheFirstName` | apps/worker-signal-router/src/signal-ingestion-worker.ts:102-111 | the kind is the first of the three names that is not blank, trimmed, and otherwise the signal type |
| `SignalIngestion.StoredSignalIsRoutable` | apps/worker-signal-router/src/signal-ingestion-worker.ts:115-180 | a stored signal passes the schemas of the router and of the outbox |
| `SignalIngestion.IdentityNamesSignal` | apps/worker-signal-router/src/signal-ingestion-worker.ts:115-180 | outbox identities tell signals apart, and routed rows from request rows |
| `SignalProtocol.DoKeepsInv` | apps/worker-signal-router/src/signal-ingestion-worker.ts:183-249 | every step of every replica, the publisher and other producers keeps the invariant |
| `SignalProtocol.ProcessedSignalsAreRoutedOnce` | apps/worker-signal-router/src/signal-ingestion-worker.ts:225-249 | a processed signal has exactly one routed row and exactly one downstream row across both types, of the agent, priority and half-life in the router's table for its kind; no signal ever has two |
| `SignalProtocol.RowsAreRight` | apps/worker-signal-router/src/signal-router.ts:41-76 | the rows carry what the router's table of four rows says of the kind, and the request is a brief exactly for the intel director |
| `SignalWorker.SignalIngestionWorker.Perform` | apps/worker-signal-router/src/signal-ingestion-worker.ts:183-249 | any step of any replica, producer, publisher or clock, made on the repositories, is that step of the protocol |
| `SignalWorker.SignalIngestionWorker.ProcessSignal` | apps/worker-signal-router/src/signal-ingestion-worker.ts:225-249 | route, request, mark in order, others acting before each; wherever it throws it has done a prefix of these steps; done, and then processed, exactly when no call throws, whatever others do |
| `SignalWorker.SignalIngestionWorker.ProcessBatch` | apps/worker-signal-router/src/signal-ingestion-worker.ts:198-218 | every claimed signal ends in the processed list if no call for it throws, and otherwise among the failures; what is listed as processed is processed at the end, whatever others do; the batch throws only where a call and the release both throw |
| `SignalWorker.SignalIngestionWorker.ProcessType` | apps/worker-signal-router/src/signal-ingestion-worker.ts:191-218 | where no call throws and nobody acts before the claim, every signal that the claim hands out is processed in the end |
| `SignalWorker.SignalIngestionWorker.ProcessTenant` | apps/worker-signal-router/src/signal-ingestion-worker.ts:183-223 | the whole call, faults and other replicas included, is a protocol run, and every id it reports is processed; it throws only for an invalid claim or where a call and the release both throw |
| `SignalWorker.ExecutionKeepsInv` | apps/worker-signal-router/src/signal-ingestion-worker.ts:183-249 | every execution keeps the protocol's invariant |
| `EvidenceSummary.PassIsAverages` | packages/db/src/adaptive-control-plane-repository.ts:2189-2240 | one pass with conditional averages computes the averages of the filtered rows |
| `EvidenceSummary.FormsAgree` | packages/db/src/adaptive-control-plane-repository.ts:1250-1303 | for parsed names the in-memory and SQL summaries agree in every field but the entity count, which is never larger and equal exactly when no two entities join to one text |
| `EvidenceSummary.ColonFreeTypesAgree` | packages/db/src/adaptive-control-plane-repository.ts:1283-1293 | for parsed names and colon-free entity types the two summaries are equal |
| `EvidenceSummary.FormsAgreeIff` | packages/db/src/adaptive-control-plane-repository.ts:2157-2263 | exactly when the two forms answer alike on names as given: the SQL form trims and rejects, the in-memory form does neither |
| `EvidenceSummary.UnstoredMetricFindsNothing` | packages/db/src/adaptive-control-plane-repository.ts:1222-1303 | in memory a metric name with surrounding spaces, or an empty one, finds no summary |
| `EvidenceSummary.GuardrailAgreesIff` | packages/db/src/adaptive-control-plane-repository.ts:2157-2263 | spaces around a guardrail name change the summary exactly when the trimmed name has observations |
| `EvidenceSummary.CollidingEntities` | packages/db/src/adaptive-control-plane-repository.ts:1288-1290 | two entities that join to one text make the in-memory count smaller |
| `EvidenceSummary.ColonEntitiesCollide` | packages/db/src/adaptive-control-plane-repository.ts:1288-1290 | such entities exist: (a:b, c) and (a, b:c) |
| `EvidenceSummary.MeanIsBetween` | packages/db/src/adaptive-control-plane-repository.ts:1245-1248 | a mean lies between two of its values |
| `EvidenceSummary.SummaryIsSane` | packages/db/src/adaptive-control-plane-repository.ts:1250-1303 | each mean lies between two of its own variant's observations; a regression is never negative and positive exactly when B's guardrail is worse (which observations count: the next four rows) |
| `EvidenceSummary.OutcomesByFields` | packages/db/src/adaptive-control-plane-repository.ts:1250-1303 | there is a summary exactly when both variants have an outcome of the metric, no guardrail row counts as one, and each mean lies between two such values of its variant |
| `EvidenceSummary.GuardrailByFields` | packages/db/src/adaptive-control-plane-repository.ts:1267-1286 | a guardrail mean is there exactly when its variant has a guardrail row of that name, lies between two such values, and the regression is by how much B's exceeds A's |
| `EvidenceSummary.BreachShows` | packages/db/src/adaptive-control-plane-repository.ts:1267-1286 | when every guardrail value of B exceeds every one of A the regression is positive |
| `EvidenceSummary.ConfidenceByFields` | packages/db/src/adaptive-control-plane-repository.ts:1286-1303 | the confidence is that of outcome rows of the metric, and lies between two of theirs |
| `EvidenceSummary.SummaryIgnoresOrder` | packages/db/src/adaptive-control-plane-repository.ts:1250-1303 | the summary depends on which observations there are, not on their order |
| `Experiments.MovesAreGood` | packages/db/src/adaptive-control-plane-repository.ts:179-198 | a legal transition keeps the clock fields in step with the status, never enters draft and never moves a start time |
| `Experiments.DoKeepsSound` | packages/db/src/adaptive-control-plane-repository.ts:957-1194 | every call keeps the store's invariant; nothing stored is lost or re-assigned |
| `Experiments.ReachableStoreIsSound` | packages/db/src/adaptive-control-plane-repository.ts:957-1194 | start and end times are set as the status says, no observed experiment is a draft, stored assignments are validated and observations fit them |
| `Experiments.StoredNamesAreProper` | packages/db/src/adaptive-control-plane-repository.ts:1121-1194 | the observations of an experiment have trimmed, non-empty metric names in every sound store |
| `Experiments.ObservationsAreTheExperiments` | packages/db/src/adaptive-control-plane-repository.ts:1222-1242 | what is summarised are exactly the stored observations of that tenant and experiment |
| `Experiments.OneCallEnters` | packages/db/src/adaptive-control-plane-repository.ts:179-198 | one call can bring a stored experiment to another status exactly from the statuses that lead there |
| `Experiments.AttainableIff` | packages/db/src/adaptive-control-plane-repository.ts:179-198 | by calls an experiment can come to exactly the statuses the lifecycle leads to, and from a draft to every one |
| `Experiments.MoveChangesFields` | packages/db/src/adaptive-control-plane-repository.ts:1036-1074 | what an accepted move leaves in each field, and that it leaves every other experiment alone |
| `Experiments.CreationByFields` | packages/db/src/adaptive-control-plane-repository.ts:957-1002 | a new experiment is stored at the end, running with a start time when created so and otherwise a draft |
| `Experiments.ObservationIsStoredIff` | packages/db/src/adaptive-control-plane-repository.ts:1121-1194 | a valid observation under a new key is stored exactly for an experiment that has begun and is neither paused nor abandoned, with its own assignment or none |
| `Experiments.AssignmentIsStoredIff` | packages/db/src/adaptive-control-plane-repository.ts:1076-1119 | a valid assignment under a new key is stored exactly for a draft or running experiment |
| `Experiments.AssignmentsAreSticky` | packages/db/src/adaptive-control-plane-repository.ts:1076-1119 | an entity keeps its first assignment whatever is asked later and whatever happens in between |
| `Experiments.AnswerIsTheEntitys` | packages/db/src/adaptive-control-plane-repository.ts:940-947 | an entity whose joined text has no second reading is answered with its own assignment, found as by a scan |
| `Experiments.SameEntityKey` | packages/db/src/adaptive-control-plane-repository.ts:940-947 | in valid tenants two assignment keys are equal exactly for one tenant, one experiment and one joined text |
| `Experiments.AnsweredRightlyIffUnshared` | packages/db/src/adaptive-control-plane-repository.ts:1076-1119 | whoever is assigned next, an unassigned entity is answered with its own assignment exactly when its text cannot be cut at another colon |
| `Experiments.OtherEntityAnswers` | packages/db/src/adaptive-control-plane-repository.ts:1076-1119 | of two entities with one text, the first to be assigned answers for both |
| `Experiments.ObservationKeyInjective` | packages/db/src/adaptive-control-plane-repository.ts:949-955 | the observation key identifies tenant, experiment and idempotency key |
| `Experiments.CountsSumToTotal` | packages/db/src/adaptive-control-plane-repository.ts:1025-1034 | the counts by status add up to the total |
| `Experiments.InMemoryExperimentRepository.Create` | packages/db/src/adaptive-control-plane-repository.ts:957-1002 | one experiment per tenant and key; the answer carries that key |
| `Experiments.InMemoryExperimentRepository.Transition` | packages/db/src/adaptive-control-plane-repository.ts:1036-1074 | moves exactly the named experiment along the graph, from the stated status only |
| `Experiments.InMemoryExperimentRepository.Assign` | packages/db/src/adaptive-control-plane-repository.ts:1076-1119 | refused outside draft and running; otherwise answered with the entity key's assignment |
| `Experiments.InMemoryExperimentRepository.RecordObservation` | packages/db/src/adaptive-control-plane-repository.ts:1121-1194 | refused when invalid; otherwise the trimmed observation is stored once under its key, exactly when experiment, status and assignment allow it |
| `Experiments.InMemoryExperimentRepository.SummarizeEvidence` | packages/db/src/adaptive-control-plane-repository.ts:1222-1242 | the summary of exactly this experiment's observations, each counted once; what it says of them by their fields: `EvidenceSummary.OutcomesByFields`, `EvidenceSummary.GuardrailByFields` |
| `Experiments.InMemoryExperimentRepository.GetSummary` | packages/db/src/adaptive-control-plane-repository.ts:1025-1034 | counts by status and in total, which add up |
| `WorkflowRuns.TerminalIsFinal` | packages/db/src/workflow-run-repository.ts:78-132 | a completed or failed run never changes, whatever is called |
| `WorkflowRuns.OneSwapWins` | packages/db/src/workflow-run-repository.ts:103-132 | of two swaps out of one state only the first is accepted |
| `WorkflowRuns.ColonFreeKeysIdentify` | packages/core/src/workflows.ts:137-209 | with colon-free dedupe keys a terminal event's key names workflow and path |
| `WorkflowRuns.KeyIsSharedIff` | packages/core/src/workflows.ts:137-209 | a terminal event's key is shared by another valid request of the tenant exactly when its text can be cut at another marker |
| `WorkflowRuns.KeysCollide` | packages/core/src/workflows.ts:137-160 | any two texts around the marker give two requests that share the key of their completed event |
| `WorkflowRuns.InMemoryWorkflowRunRepository.UpsertRequested` | packages/db/src/workflow-run-repository.ts:78-101 | one run per tenant and workflow; an existing run is returned unchanged |
| `WorkflowRuns.InMemoryWorkflowRunRepository.TransitionState` | packages/db/src/workflow-run-repository.ts:103-132 | swaps exactly when the run is in the stated, non-terminal state |
| `WorkflowRuns.InMemoryWorkflowRunRepository.GetByWorkflowId` | packages/db/src/workflow-run-repository.ts:134-139 | finds the tenant's run of that workflow, or there is none |
| `WorkflowProtocol.TerminalRunHasItsEvent` | apps/worker-workflow-callback/src/workflow-callback-worker.ts:88-221 | in every run a completed (failed) workflow has a completed (failed) event under its own key in the outbox |
| `WorkflowProtocol.OnlyLateDeliveriesSpeak` | apps/worker-workflow-callback/src/workflow-callback-worker.ts:88-221 | from any state in which a run is terminal it keeps that state, no later delivery becomes involved, and every new row about it comes from a report or verdict of a delivery that began before |
| `WorkflowProtocol.DeliveriesAfterTerminationAreSilent` | apps/worker-workflow-callback/src/workflow-callback-worker.ts:88-110 | once every delivery that began before the end is over, nothing more is enqueued about the run |
| `WorkflowEvents.AlwaysNamedIffUnambiguous` | apps/worker-workflow-callback/src/workflow-callback-worker.ts:88-348 | every terminal run of every run of the protocol is named by its event exactly when no two delivered requests for different workflows share a terminal identity |
| `WorkflowEvents.ClashHidesARun` | apps/worker-workflow-callback/src/workflow-callback-worker.ts:88-221 | of two requests that share it, delivered one after the other, the second run ends with no row that names it |
| `WorkflowEvents.ClashesIff` | packages/core/src/workflows.ts:137-209 | a request shares a terminal identity with another workflow exactly when its key can be cut so as to leave another workflow id |
| `WorkflowEvents.CollidingKeysClash` | packages/core/src/workflows.ts:137-160 | such pairs of requests exist in every tenant |
| `WorkflowEvents.ColonFreeIsUnambiguous` | packages/core/src/workflows.ts:137-209 | colon-free dedupe keys never clash |
| `WorkflowEvents.NamedIffConcluded` | apps/worker-workflow-callback/src/workflow-callback-worker.ts:155-205 | an event of a kind names a workflow exactly when some delivery of it reached that verdict, in every run |
| `WorkflowEvents.BothEventsIffVerdictsDiffer` | apps/worker-workflow-callback/src/workflow-callback-worker.ts:155-205 | the outbox holds both terminal events of a workflow exactly when two of its conclusions differ |
| `WorkflowEvents.OrderlyDeliveriesLeaveOneEvent` | apps/worker-workflow-callback/src/workflow-callback-worker.ts:88-221 | one delivery at a time, none stopping between event and swap, leaves at most one terminal event, whatever happens to other workflows |
| `WorkflowEvents.RaceLeavesBoth` | apps/worker-workflow-callback/src/workflow-callback-worker.ts:155-205 | for every valid request two racing workers can leave both events |
| `WorkflowEvents.RedeliveryLeavesBoth` | apps/worker-workflow-callback/src/workflow-callback-worker.ts:155-205 | for every valid request one worker that stops after its event, and is delivered the request again, can leave both |
| `WorkflowWorker.WorkflowCallbackWorker.Perform` | apps/worker-workflow-callback/src/workflow-callback-worker.ts:88-348 | any step of any worker, producer, publisher or clock, made on the repositories, is that step of the protocol |
| `WorkflowWorker.WorkflowCallbackWorker.Open` | apps/worker-workflow-callback/src/workflow-callback-worker.ts:88-117 | upsert, early return on a terminal run with the stored run's state, and the first swap are protocol steps, others acting before each; left alone, a terminal run ends the delivery untouched and any other is in progress |
| `WorkflowWorker.WorkflowCallbackWorker.ReportAll` | apps/worker-workflow-callback/src/workflow-callback-worker.ts:300-307 | the loop over history events is a sequence of report steps, others acting before each, stopped exactly where storing throws; when it ends every event is in the outbox |
| `WorkflowWorker.WorkflowCallbackWorker.Close` | apps/worker-workflow-callback/src/workflow-callback-worker.ts:155-205 | the terminal event is enqueued before the swap, others acting before each; a throw leaves a prefix of the steps; left alone, the run in progress ends in the state of the event, a failure with its code |
| `WorkflowWorker.WorkflowCallbackWorker.Work` | apps/worker-workflow-callback/src/workflow-callback-worker.ts:119-221 | completed exactly when every step and report succeeded, failed exactly on a reported failure or, on the direct path, a failed step or report; a throw only where a call throws or the executor leaves it open |
| `WorkflowWorker.WorkflowCallbackWorker.ProcessTenantProvisioningCompletion` | apps/worker-workflow-callback/src/workflow-callback-worker.ts:256-348 | the whole call on either path, faults and other workers included, is a protocol run; a cached answer is the stored run's terminal state; completed and failed mean what happened, with their events in the outbox; a faultless request completes or finds its run ended; left alone, the run ends as the answer says and no other run changes |
| `WorkflowWorker.WorkflowCallbackWorker.FaultlessCompletes` | apps/worker-workflow-callback/src/workflow-callback-worker.ts:256-348 | a valid request whose steps and reports all succeed and none of whose calls throws ends completed, or finds its run ended |
| `WorkflowWorker.ExecutionKeepsInv` | apps/worker-workflow-callback/src/workflow-callback-worker.ts:88-348 | every execution keeps the protocol's invariant |
| `Splitting.SplitThenJoin` | packages/skills/src/index.ts:21-29 | splitting and joining with the same separator gives the text back |
| `SkillFrontmatter.ParseSkillMarkdown` | packages/skills/src/index.ts:21-57 | the line loop computes the specified parse |
| `SkillFrontmatter.KeyedStep` | packages/skills/src/index.ts:40-50 | a keyed line is cut at its first and second colon |
| `SkillFrontmatter.RoundTripsIfColonFree` | packages/skills/src/index.ts:21-57 | for every printable skill, printing then parsing gives it back exactly when its id holds no colon |

## Left out

- SHA-256: the digest of a request is the canonical text that would be hashed.
- UUIDs and claim tokens: fresh natural numbers; tenant ids stay text and are checked as UUIDs.
- ExternalActionsRepository.InMemoryExternalActionsRepository.RecordDispatchAccepted: does not keep the receipt, workflow id and provider reference, which no decision reads.
- ExternalActionsRepository.InMemoryExternalActionsRepository.RecordOutcome: does not keep the outcome body and provider ids, which no decision reads.
- LearningProposalsRepository.InMemoryLearningProposalRepository.RecordEvaluation: does not keep the evidence snapshot and the decision reasons.
- OutboxPublisher is about dispatch rows that were enqueued with their action; what others do between the incident and the health record counts as done before both.
- LearningWorker is about one tenant, whose playbook versions all come from critiques; a version is named by its position.
- Experiments.InMemoryExperimentRepository.RecordObservation: does not keep costs, sources and timestamps.
- Event type strings and lifecycle key strings of the external-action repository: a datatype in place of text; error texts and their redaction are not kept.
- The learning worker's path without a durable proposal, and what a new playbook's content says (`buildUpdatedRubricContent`).
- How evidence reaches an evaluation: a step reads risk and human approval from the stored proposal at once; metrics are arbitrary.
- Payload schemas of outbox rows in the publisher: each payload is given as already parsed or rejected; `publishCycle` over several tenants only repeats the tenant loop.
- Limits of listings are taken as non-negative, as every caller passes them.
- A JavaScript Map is iterated in id order, which is its insertion order here.
- Rounding: metrics, means and lifts are reals, where the code has doubles and numeric columns.
- `Number(text)` in the skill parser: a parameter; the round trip asks only that it reads the printed version back.
- A frontmatter key named `__proto__`, which JavaScript objects treat specially.
- SkillFrontmatter.RoundTripsIfColonFree: printing is the strict form with every field present; other texts the parser accepts are covered by `ParseSkillMarkdown` only.
- WorkflowWorker: the provisioning steps themselves, secrets, and run ids and messages in events; where the durable path meets a terminal run it passes the executor's answer on, and `Relayed` does not tell a throw of that call from a run still going on.
- SignalProtocol: the grade stands for everything a replay may compute differently; experiment lineage and request ids in payloads are left aside.
- `FOR UPDATE SKIP LOCKED` in the SQL claim of signals: a concurrent claim may see fewer rows than the in-memory one.
- Delivery by the message bus: any message may arrive any number of times; acknowledgement and dead-lettering belong to a library outside this model.
- API routes, identity, billing, web pages, mail, logging, metrics, configuration, migrations: plumbing.
- Incident, component-health, warmth, attribution and motion scoring stores: members without a property across functions.
