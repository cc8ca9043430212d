# Durable protocols of the app platform

A Dafny model of the platform's durable protocols: SQL tables changed by atomic
transactions, combined with at-least-once delivery, crashes, retries and concurrent
workers. Transactions are pure steps on tables; classes run them statement by
statement, are proved equal to the steps and keep an invariant from one transaction to
the next; state machines run the steps in any order the environment chooses; theorems
speak about every run.

`dafny verify dfyconfig.toml` checks everything.

## What is modelled

**Payments, end to end.** `remote_app` and `callbacks` are the reference app: payments
with their own revision, request idempotency, the callback queue. `capability` is the
platform: resource rows, the transactional outbox, the callback inbox, invocation
receipts. `outbox` delivers events to a broker log, `core_inbox` is the consumer.
`pipeline` puts them together as one state machine of eight kinds of steps, with every
environment choice explicit: late and repeated app answers, callbacks in any order,
a crash between publish and commit, a lost acknowledgement, redelivery, operator replay.
The invariants are built in `payment_history`, `payment_seen`, `payment_truth` (what
holds whatever comes in), `pipeline_app`, `pipeline_links`, `pipeline_delivery` and
`pipeline_theorems`; what they mean is in `pipeline_results`, `pipeline_orders`,
`pipeline_retries`, `pipeline_replies` and, for arbitrary forged messages, `consumer`.
`payment_operations` says what each operation does to a payment, `announcements` how events
are born, `pipeline_progress` which of them can still arrive.

**Install consent and access.** `consent` holds releases, intents and the closed list of
grantable permissions; `lifecycle_tables` the tables of one tenant and every transaction
on them, for the consent path and the older direct path over the same rows, with the
revocation trigger; `connections` the OAuth side; `lifecycle` the state machine with
cleanup workers that hold arbitrarily old readings. `lifecycle_rules`, `lifecycle_steps`,
`lifecycle_effects`, `lifecycle_memory`, `lifecycle_transactions` and `lifecycle_safety`
carry the invariant, `lifecycle_results`, `lifecycle_replays`, `lifecycle_links`,
`lifecycle_lists`, `lifecycle_notices`, `lifecycle_readiness` and `handshakes` the results;
`lifecycle_requests` says when each request succeeds, in terms a caller can check. `registry` holds the signed,
immutable releases; `lifecycle_registry` runs the lifecycle on its answers.

**Retry engines.** `retry_engines` treats outbox, callback queue, webhook queue and the
revocation of remote installations as one kind of machine; cleanup with many workers and
stale readings is part of the lifecycle.

**Grants of the reference OAuth server.** `reference_oauth`; `oauth_codes` and `oauth_grants`
tell from the history of a run alone which codes and tokens are accepted.

**Duplicate-key checks.** `json_trees` and `unique_json`: both checks over a token decoder,
against JSON values (section 4 of RFC 8259).

The classes are in `capability_store`, `core_store`, `outbox_store`, `reference_store`,
`webhooks`, `installation_store`, `connection_store`, `registry`, `reference_oauth` and
`unique_json`.
Every table class has a `Valid` that each of its transactions finds and leaves behind, so
that transactions may follow each other in any order: the loops of the consumer
(`CoreStore.ConsumeAll`), of the outbox worker (`OutboxStore.Store.DeliverBatch`) and of the
cleanup worker (`ConnectionStore.CleanUpDue`) are built on nothing else.

## How it is modelled

- Hashes (request, body, consent digest, code challenge, derived key) are injective, so the
  hashed value stands for the hash. Random ids and tokens are new: a step that needs one
  is enabled only with an id that nothing uses. A unique-key violation on an insert is
  answered `Unavailable` and rolled back.
- A transaction is one step. An effect outside it (a publish, the local part of an OAuth
  revocation) is a step of its own or survives the rollback of the transaction around it.
- The clock is an input. In the lifecycle a transaction reads it twice, and runs are timed:
  readings never go back.
- The broker is a log; consumers may take any position again, in any order. Bytes either
  fail to decode or carry an envelope; two equal envelopes are the same bytes.
- HTTP status mapping, signatures and authorization are choices of the environment. Where the
  code checks an answer (`Plausible`, `Eligible`, `Gate`), the check is modelled. Of the policies
  with registries of their own (resource apps, reviewed UI, embedded pilot) the shape of the
  release is checked, for a resource app also what its three sources (reviewed user interfaces,
  signed releases, private versions) ask of the scopes; identifier formats, digests, signatures
  and assignments enter as one verdict.
- The machine of `lifecycle` takes any answer of the registry, so its results hold for any
  registry. `lifecycle_registry` answers from the rows of `registry`: published in any order,
  never changed, verified at every reading. There a turn whose answers are not the registry's
  does not happen; apps with their own sources (the prefix `app_`, the pilot) are left free.
- Ids and scopes are ordered character by character where a query or a sort orders them.
- A resource that is not a payment is written by an upsert that asks for the owner of the row
  only. Neither runtime answers a payment's id there (the simulator takes a new id or the current
  row, the remote client admits payments only); `PaymentTruth` says exactly which answers would
  do no harm.
- Lifecycle tables are those of one tenant, because every statement filters by tenant and
  every transaction takes that tenant's lock.
- A pipeline run begins with empty queues, receipts, outbox, inbox and consumer. Payments from
  before revisions existed (revision 0) may be present if app and platform agree on them.
- What `payment_truth` says holds for any snapshot. That a genuine one is never refused needs
  what the app's invariant provides: revision and rank move together. That invariant is proved
  of the simulator, not assumed.

## Where the code and its promises part

- Lifecycle notices carry the owner's actor id, for which the lifecycle accepts `.`, `:` and
  `@`; the event contract accepts none of them. Such notices are dead at the first delivery
  attempt (`LifecycleNotices`).
- A payment from before revisions existed, on which platform and app already disagree, conflicts
  at the app's own state, and goes on conflicting while the stored status is ahead of the app's
  (`PaymentHistory.DisagreementHealsExactlyWhen`).

## Model

| member | source | states |
|---|---|---|
| `CapabilityStore.Repository.SavePayment` | internal/capability/postgres/payment.go:19-70 | the transaction step leaves the tables exactly as the fold says: the snapshot with the higher revision, or a refusal, and exactly for a change of status one event more, which is neither published nor dead and due at once |
| `CapabilityStore.Repository.ApplyCallback` | internal/capability/postgres/payment.go:72-108 | a callback is deduplicated by delivery id, refused for a body that differs and folded once; any error leaves the tables as they were, any body keeps the announced history exact and every row the newest snapshot that came in, and exactly an applied one announces an event, which is due at once |
| `CapabilityStore.Repository.Execute` | internal/capability/postgres/repository.go:16-89 | an invocation answers from its receipt, or runs, stores, announces and records in one transaction, or leaves no trace; what it announces is due at once; whatever payment the runtime answers, history and newest snapshots stay exact, and with answers of other capabilities exactly when these spare the payment rows |
| `CapabilityStore.Repository.Upsert` | internal/capability/postgres/repository.go:58-67 | a resource that is not a payment is inserted or overwritten only for the installation that owns it |
| `CoreStore.Inbox.ApplyPayment` | examples/core-reference/payments.go:10-43 | the payment row moves to a later event of the same payment, ignores older ones, or the event is refused with its reason and the row stays |
| `CoreStore.Inbox.Apply` | examples/core-reference/inbox.go:34-86 | one message is taken, recognised or buried; the inbox row inserted first is taken out again when the payment is refused; after any message counters and projection still follow from the inbox |
| `CoreStore.ConsumeOne` | examples/core-reference/inbox.go:90-113 | nothing is signalled before the commit, exactly quarantined messages are terminated, and a signal that gets lost changes nothing |
| `CoreStore.ConsumeAll` | cmd/core-reference/main.go:142-158 | the consumer's loop: whatever times out, fails or comes again, it ends in the state the committed messages alone lead to |
| `OutboxStore.Broker.Send` | internal/event/natsbus/bus.go:40-50 | an acknowledgement means that the stream holds the message; a lost answer may or may not |
| `OutboxStore.Store.Earliest` | internal/platform/outboxpg/outbox.go:37-40 | the chosen row is due, unlocked and the first by next attempt and id; none chosen means none due |
| `OutboxStore.Store.DeliverOne` | internal/platform/outboxpg/outbox.go:27-75 | one worker turn, also when it crashes between publish and commit: what the broker stored stays, the row changes only with the commit, and then it is published exactly when a valid event was acknowledged, and dead exactly when it was refused, invalid, a day old or tried twelve times |
| `OutboxStore.Store.DeliverBatch` | cmd/worker/main.go:138-153 | the worker's batch: it goes on only after a committed publish, each such turn publishes another row, published rows are not touched, and it ends idle only when nothing unlocked is due |
| `OutboxStore.Store.Replay` | internal/platform/outboxpg/outbox.go:81-102 | exactly a dead row is revived, due at once and with a clean budget, and no other column or row changes |
| `ReferenceStore.Server.Execute` | internal/referenceapp/server.go:358-428 | idempotent execution: a capture leaves an authorized or captured payment captured, a refund a captured or refunded one refunded, a status request what it found, and any other status is Conflict; one callback is queued exactly when a payment is new or its status moved; records and queued callbacks stay true states of their payments |
| `ReferenceStore.Server.DeliverOne` | internal/referenceapp/callbacks.go:42-108 | one callback attempt on a due row: cancelled without a grant and dead without budget, no attempt counted; otherwise counted, and delivered when accepted, dead when rejected or after the twelfth, waiting when unanswered |
| `Webhooks.Queue.DeliverOne` | internal/webhook/service.go:74-122 | one webhook decision on a due row: cancelled when installation or subscription is gone, dead when a day old or tried twelve times, no attempt counted; otherwise counted, and delivered, waiting, or dead at the twelfth |
| `Webhooks.Queue.Cancel` | internal/webhook/postgres/repository.go:77-94 | a delivery to a removed installation is cancelled only while pending |
| `Webhooks.EachEventIsRecordedOnce` | internal/referenceapp/server.go:448-493 | whatever webhooks arrive, per installation each event is recorded under one delivery; an accepted arrival is on record with its event and body for good, a genuine one is refused only when its delivery id or event stands for another body |
| `PaymentHistory.FoldAccepts` | internal/capability/postgres/payment.go:25-52 | on one payment's history the fold never conflicts, keeps the snapshot with the higher revision, and applies exactly when the status changes |
| `PaymentHistory.FoldAcceptsExactly` | internal/capability/postgres/payment.go:30-52 | the fold accepts exactly the snapshots that continue one history, and refuses all others as Conflict |
| `PaymentHistory.UnnumberedDisagreementConflicts` | internal/capability/postgres/payment.go:37-39 | a concrete pair of disagreeing payments without revisions on which a genuine answer conflicts |
| `PaymentHistory.DisagreementHealsExactlyWhen` | internal/capability/postgres/payment.go:34-43 | for every such pair: a later state of the app is accepted again exactly from its next change of status on and once its rank has caught up with the stored one |
| `PaymentHistory.SavePaymentKeeps` | internal/capability/postgres/payment.go:19-70 | whatever snapshot is saved, the announced history stays exact and the row holds the higher revision; on one history saving fails only when the new event id is taken |
| `PaymentHistory.ExecuteKeeps` | internal/capability/postgres/repository.go:16-89 | an invocation keeps the history exact whatever payment it is answered, and never answers Conflict by itself when the answer continues the history |
| `PaymentTruth.CallbackStaysTruthful` | internal/capability/postgres/payment.go:72-108 | after any callback, forged or garbled, the events of each payment are 1..n without gap and its row is a maximum of everything that came in |
| `PaymentTruth.ExecuteStaysTruthfulExactlyWhen` | internal/capability/postgres/repository.go:16-89 | the same after any invocation, if and only if it is refused or repeated, answers a payment of its own capability or nothing, or its answer spares the payment rows: not owned by this installation, left as it is, or never announced and still the newest that came in |
| `Announcements.AppliedIsAnnounced` | internal/capability/postgres/payment.go:53-70 | the event of a change of status carries the payment as it is stored, is neither published nor dead, due at once, and is accepted by the event contract exactly when the ids it was given are tokens |
| `Announcements.InvocationIsAnnounced` | internal/capability/postgres/repository.go:68-89 | exactly a recorded invocation announces itself and the change it made; every new row is waiting and due at once |
| `Announcements.WaitingIsSent` | migrations/0003_outbox_delivery.sql:7-11 | a waiting row is due from its event on, and one acknowledged attempt publishes a valid one; an invalid one dies at the first |
| `PaymentOperations.RequestsActAsAsked` | internal/runtime/simulator/runtime.go:16-52 | every request to the app is answered, and leaves its payment, as its operation on the payment it found demands; refusals change nothing |
| `PaymentOperations.MovesCount` | internal/runtime/simulator/runtime.go:33-52 | an operation never takes a payment back, its revision counts exactly the moves, and asking for the same again moves nothing |
| `PaymentOperations.LocalPaymentsMoveAlike` | internal/runtime/simulator/runtime.go:16-52 | payments of the platform's own simulator move as those of the app |
| `PaymentOperations.InvocationsAnswer` | internal/capability/postgres/repository.go:34-85 | the runtime is shown only what the installation owns under the capability; its refusal is passed on, and what is recorded is its answer with the payment as stored |
| `PaymentOperations.CallbacksAnswer` | internal/capability/postgres/payment.go:72-108 | a callback about a payment that is not this installation's is NotFound; only others change anything, and what is not stale becomes the stored payment |
| `PaymentOperations.ShippingAnswers` | internal/runtime/simulator/runtime.go:53-78 | which shipping requests are answered, and that a shipment costs 5000 and 1000 for every kilogram begun |
| `PaymentOperations.QuotedIsCharged` | internal/runtime/simulator/runtime.go:69-75 | the quoted rate is what a created shipment costs |
| `PaymentSeen.CallbackKeepsSeen` | internal/capability/postgres/payment.go:72-108 | after a callback the stored snapshot is still one that came in, and nothing that came in is newer |
| `PaymentSeen.ReceiptKeepsSeen` | internal/capability/postgres/repository.go:48-85 | the same after an invocation: its receipt carries the row as stored |
| `PipelineApp.ExecuteKeeps` | internal/referenceapp/server.go:390-427 | one app run keeps every recorded response and queued callback a true state of its payment, and the current state announced |
| `PipelineLinks.CallbackStepKeeps` | internal/capability/postgres/payment.go:72-108 | a callback the app queued is never refused as Conflict or Invalid, in any order and after any other response |
| `PipelineLinks.RemoteStepKeeps` | internal/runtime/remote/client.go:19-70 | committing any recorded app response, however old, keeps both sides in agreement and never conflicts without a receipt |
| `PipelineLinks.SimulatorStepKeeps` | internal/runtime/simulator/runtime.go:16-79 | invocations on the local simulator leave remote payments untouched and keep the history exact |
| `PipelineDelivery.ApplyKeeps` | examples/core-reference/inbox.go:34-86 | a published event is taken or recognised, never quarantined, whatever was taken before |
| `PipelineDelivery.LandingKeepsLog` | internal/platform/outboxpg/outbox.go:46-52 | only committed, valid events enter the broker |
| `PipelineDelivery.AttemptKeepsLog` | internal/platform/outboxpg/outbox.go:53-74 | published and dead exclude each other and a published row is in the broker |
| `PipelineTheorems.ConsumeKeeps` | examples/core-reference/inbox.go:34-86 | any message of the broker, first time or again, is accepted by the consumer |
| `PipelineTheorems.EveryRunIsSafe` | internal/capability/postgres/payment.go:17-70 | safety over every run of app, platform, broker and consumer with crashes, duplicates and reordering |
| `PipelineResults.ConsumerRowIsNewestTaken` | examples/core-reference/payments.go:24-41 | the consumer's payment row is the highest revision delivered so far, exists exactly when something was delivered, and nothing is ever quarantined |
| `PipelineResults.ConsumerNeverAhead` | examples/core-reference/payments.go:24-41 | the consumer is never ahead of the platform and never contradicts it |
| `PipelineResults.AllTakenMeansAgreement` | examples/core-reference/payments.go:24-41 | once every event of a payment was delivered, consumer and platform agree on status, revision and money |
| `PipelineResults.AllReportedMeansCaughtUp` | internal/referenceapp/server.go:408-421 | once every callback of a payment was taken, the platform stores exactly the app's payment |
| `PipelineResults.EverythingDeliveredMeansAgreement` | internal/capability/postgres/payment.go:17-70 | end to end: the consumer shows the app's own status and money |
| `PipelineResults.StoredIsNewestSeen` | internal/capability/postgres/payment.go:29-43 | the stored snapshot is the newest of all callback bodies and recorded answers |
| `PipelineResults.AnnouncedHistoryIsExact` | internal/capability/postgres/payment.go:44-69 | per payment the events carry revisions exactly 1..n with strictly rising rank and constant identity, the last one the stored status |
| `PipelineResults.QueuedCallbacksNeverConflict` | internal/capability/postgres/payment.go:29-43 | in every run a queued callback is refused only for an unknown payment or a taken event id |
| `PipelineResults.QueuedCallbacksAreAuthentic` | internal/capability/payment.go:102-105 | in every run every queued callback passes the check of the body before the transaction, so that the result above is about all of them |
| `PipelineReplies.RecordedAnswersAreAccepted` | internal/runtime/remote/client.go:57-69 | in every reachable state each answer the app has recorded is an answer to its request and passes the remote client's check |
| `PipelineReplies.ClientAcceptsExactlyAnswers` | internal/runtime/remote/client.go:57-69 | whoever answers, the client accepts exactly answers to its own request: capability, operation, installation, payment, money and status asked for |
| `PipelineReplies.DeliveredWasReported` | internal/referenceapp/callbacks.go:94-98 | over every run a callback filed as delivered is in the platform's inbox with its very body |
| `PipelineProgress.EverythingDeliverableArrives` | internal/platform/outboxpg/outbox.go:27-75 | from every reachable state there is a way on without operator replays on which the consumer takes exactly the events that are not lost, and no such way on which it takes a lost one |
| `PipelineProgress.AllTakenIsReachableExactlyWhen` | examples/core-reference/payments.go:24-41 | the consumer can still come to agree about a payment, without an operator, if and only if none of its events is lost: out of the broker, and dead or invalid |
| `PipelineProgress.NothingIsBornLost` | internal/capability/postgres/payment.go:53-70 | from every state of a run in which nothing was delivered yet a way on delivers every valid event; with well-formed ids that is every event, and the consumer agrees about every payment |
| `PipelineOrders.InboxDeterminesCore` | examples/core-reference/inbox.go:51-86 | receipts, projection and dead letters are a function of the inbox |
| `PipelineOrders.OrderDoesNotMatter` | examples/core-reference/inbox.go:88-113 | two deliveries of the same messages in any order with any repetitions end in the same consumer state |
| `PipelineRetries.RedundantStutters` | internal/capability/postgres/repository.go:24-32 | a request, callback or message whose key is recorded changes nothing, whatever body it carries |
| `PipelineRetries.RepetitionsLeaveNoTrace` | internal/capability/postgres/payment.go:80-92 | removing every repetition from a run leaves the same final tables, and no repetition remains |
| `PipelineRetries.RunRemembers` | internal/capability/postgres/repository.go:74-85 | receipts, inboxes and idempotency records are never lost or rewritten |
| `PipelineRetries.PublishedIsFinal` | internal/platform/outboxpg/outbox.go:37-52 | a published row is in the broker, never dead, and never touched again |
| `PipelineRetries.DeadUntilReplayed` | internal/platform/outboxpg/outbox.go:91-97 | over any run a dead row stays dead in every column until an operator replays this very row |
| `PipelineRetries.RetryReturnsTheReceipt` | internal/capability/postgres/repository.go:24-32 | a retry after any later run returns the recorded response, or Conflict for another request, and changes nothing |
| `PipelineRetries.AppRetryReturnsTheRecord` | internal/referenceapp/server.go:378-389 | the app's answer to a repeated invocation is the recorded one, without effect |
| `PipelineRetries.OneCreateKeyOnePayment` | internal/referenceapp/server.go:377-427 | new payments and recorded create requests correspond one to one over any run |
| `PipelineRetries.RetryFindsTheSamePayment` | internal/capability/postgres/repository.go:47-85 | after a platform rollback that followed an app success, the retry is given that same payment, never Conflict |
| `PipelineRetries.DerivedKeyTellsApart` | internal/runtime/remote/client.go:24 | two invocations share an app key only if tenant, installation, actor and key all agree |
| `Consumer.QuarantineLeavesNoTrace` | examples/core-reference/inbox.go:42-45 | for any message in any state: a quarantine leaves inbox, receipts and payments as they were and keeps the first reason |
| `Consumer.BuriedExactlyWhen` | examples/core-reference/inbox.go:34-86 | every message is taken, recognised or buried; buried exactly for the one reason there is, which its dead letter names |
| `Consumer.InboxDecidesTheRest` | examples/core-reference/inbox.go:47-87 | whatever arrives, each counter is the number of inbox entries of its tenant and type, and each payment row is the newest event taken about its payment |
| `Consumer.PaymentsNeverRegress` | examples/core-reference/payments.go:24-41 | whatever arrives, a payment row keeps its identity and never falls in revision or rank |
| `Consumer.ApplyIsIdempotent` | examples/core-reference/inbox.go:89-113 | taking any message at once again changes nothing, so a lost acknowledgement costs nothing |
| `RetryEngines.TurnEndsOrWaits` | internal/platform/outboxpg/outbox.go:53-69 | one due turn of any queue ends the job or waits the backoff of that attempt |
| `RetryEngines.TwelveAttemptsSettle` | internal/webhook/service.go:97-114 | outbox, callbacks, webhooks and cleanup: any job is final after twelve worker turns; an open one had at most eleven, and its waits add up to at most 1278 seconds |
| `RetryEngines.PassingFaultsGetTwelveAttempts` | internal/referenceapp/callbacks.go:64-104 | within the first day passing faults end a job at the twelfth attempt and not before |
| `RetryEngines.RevivedWaitsExactlyWhen` | internal/platform/outboxpg/outbox.go:53-67 | a replayed row keeps its age: its next turn leaves it waiting only while the event is at most a day old and the broker did not answer |
| `RetryEngines.ReviveOnce` | internal/webhook/postgres/monitor.go:110-152 | of two owners who saw the same revision only one revives a delivery |
| `InstallationStore.Repository.PrepareIntent` | internal/installation/service/intents.go:90-122 | an intent is recorded once per key, unless it expired while the release was resolved |
| `InstallationStore.Repository.ChangeIntent` | internal/installation/postgres/intents.go:45-123 | a decision is taken once, by its owner, on its digest, before the second expiry check |
| `InstallationStore.Repository.ReadView` | internal/installation/postgres/access.go:39-72 | the owner's view, refused on drift |
| `InstallationStore.Repository.Receipt` | internal/installation/postgres/access.go:97-117 | a recorded request answers with the current view and what became of its token, or Conflict for another body |
| `InstallationStore.Repository.ConsumeIntent` | internal/installation/postgres/access.go:139-212 | a live consent of this owner becomes one pending installation, or nothing changes |
| `InstallationStore.Repository.Activate` | internal/installation/postgres/access.go:214-312 | activation with the eligibility, readiness, binding and capability checks in order |
| `InstallationStore.Repository.IssueToken` | internal/installation/postgres/access.go:291-304 | a new token replaces the live one and is the one the request is recorded with |
| `InstallationStore.Repository.Uninstall` | internal/installation/service/access.go:235-247 | uninstalling is possible whatever became of the release; remote apps go through disabling |
| `InstallationStore.Repository.RoutesFree` | internal/installation/postgres/repository.go:91-103 | no other active app routes one of these capabilities |
| `InstallationStore.Repository.Change` | internal/installation/postgres/repository.go:59-132 | the direct path's upsert, notice and receipt, or nothing |
| `InstallationStore.Repository.Execute` | internal/installation/service/service.go:76-125 | the guards of the direct path and its state machine |
| `InstallationStore.Repository.FindRoute` | internal/installation/postgres/repository.go:143 | the routed row is active and has the capability; none found means none active has it |
| `InstallationStore.Repository.WithActive` | internal/installation/service/service.go:129-152 | a capability is granted exactly through the active row with its grant, scope and first listed manifest of the same scopes |
| `InstallationStore.Repository.PendingCleanup` | internal/installation/postgres/remote.go:74-89 | readings of at most twenty due rows, each once, those that waited longest first; fewer only when no other is due |
| `InstallationStore.Repository.Complete` | internal/installation/postgres/remote.go:92-107 | the worker's transaction after the revocation was confirmed |
| `InstallationStore.Repository.Fail` | internal/installation/postgres/remote.go:108-112 | a failure is charged only at the revision that was read |
| `InstallationStore.Repository.Retry` | internal/installation/postgres/monitor.go:84-94 | owner retry by revision after twelve attempts, operator retry at any time |
| `ConnectionStore.Repository.Begin` | internal/oauth/postgres/repository.go:14-32 | one open handshake per request, reused when it is still open, Conflict when it is spent |
| `ConnectionStore.Repository.Access` | internal/oauth/service.go:198-233 | an expiring token is refreshed first, a failed refresh costs the connection |
| `ConnectionStore.Repository.Consume` | internal/oauth/postgres/repository.go:33-40 | a handshake is used once by its own actor and session before it expires |
| `ConnectionStore.Repository.Invalidate` | internal/oauth/postgres/repository.go:66-72 | the connection is cut and every open handshake spent |
| `ConnectionStore.CleanUp` | internal/installation/postgres/remote.go:92-116 | revocation effects survive the worker's rollback; the row ends only after a confirmed revocation and a commit |
| `ConnectionStore.CleanUpDue` | cmd/worker/main.go:183-190 | a whole worker's round: each picked row ends cut off or is charged one attempt with its backoff, as its own attempt went, and no other row changes |
| `LifecycleTransactions.ConsumeStaysSound` | internal/installation/postgres/access.go:139-212 | consuming any intent leaves all table invariants standing for the next transaction |
| `LifecycleTransactions.ActivateStaysSound` | internal/installation/postgres/access.go:214-312 | the same for an activation |
| `LifecycleTransactions.DirectStaysSound` | internal/installation/postgres/repository.go:59-132 | the same for every action of the direct path |
| `LifecycleRules.EffectKeeps` | internal/installation/postgres/access.go:139-312 | every kind of table change keeps all table invariants |
| `LifecycleRules.EffectMovesForward` | internal/installation/domain/installation.go:31-84 | no table change moves an installation backwards |
| `LifecycleSafety.NextKeepsSafe` | internal/installation/postgres/repository.go:59-132 | every step of consent path, direct path, OAuth and cleanup keeps the whole invariant |
| `LifecycleSafety.EveryRunIsSafe` | internal/installation/postgres/access.go:139-312 | the invariant holds in every state of every timed run |
| `LifecycleResults.EveryGrantIsConsented` | internal/installation/postgres/access.go:139-212 | an active grant traces to one consented intent of its owner with equal digest, release and scopes, created <= decided <= consumed < created + 10 minutes, used by no other, and the owner presented that digest twice |
| `LifecycleResults.OnlyListedScopesAreGranted` | internal/installation/service/access.go:79-140 | in every reachable state only what the release's policy allows is granted: the closed list with its capability, a resource app's required scopes, nothing to user interfaces |
| `LifecycleResults.RoutingIsAFunction` | internal/installation/postgres/access.go:243-264 | over both paths at most one active installation per capability and per shipping binding, and it always passes the grant check |
| `LifecycleResults.AccessNeverDrifts` | internal/installation/postgres/access.go:57-61 | the drift check never fails and the grant is always the one of the status |
| `LifecycleLists.ListInstalled` | internal/installation/postgres/list.go:16-67 | the query's page: the rows after the cursor in the order of their ids, none left out before the limit, each with its item; it fails only for a row that may not be shown |
| `LifecycleLists.EveryListSucceeds` | internal/installation/postgres/list.go:36-66 | in every reachable state every consented installation that is not uninstalled is in the list and passes its checks, under whatever policy it came |
| `LifecycleLists.List` | internal/installation/service/access.go:26-47 | a page of the asked size and the cursor of the next one; no cursor exactly when nothing is left; a malformed size or cursor is refused |
| `LifecycleLists.PagesShowEveryAppOnce` | internal/installation/service/access.go:38-46 | following the cursor shows every app once, in order of the installation ids |
| `LifecycleLists.ResourceShownExactlyWhen` | internal/installation/postgres/list.go:41-46 | what the list needs of a readiness source: of the resource releases the lifecycle itself accepts exactly those without optional scopes, whose required ones are reviewed and in order, can be shown |
| `LifecycleResults.ActivatesExactlyWhen` | internal/installation/postgres/access.go:214-276 | a first activation succeeds exactly when in use, eligible, unrivalled, and ready: for the remote app, the shipping fixtures and the shipping providers the dependency must answer so, and a provider must be bound; a refusal changes nothing |
| `LifecycleResults.UnreadyIsRefused` | internal/installation/service/access.go:275-299 | an unready dependency answers its very fault and leaves every table alone |
| `LifecycleReadiness.ActiveWasReady` | internal/installation/service/access.go:275-299 | over every run whatever is active, on either path, was put into service by a turn that found its dependency ready |
| `LifecycleRequests.PreparesExactlyWhen` | internal/installation/service/intents.go:87-116 | an intent is prepared exactly when the registry answers in time and its id is new; it is undecided and good for ten minutes |
| `LifecycleRequests.DecidesExactlyWhen` | internal/installation/domain/intent.go:141-159 | in every reachable state a decision counts exactly when its owner makes it on the digest of an undecided intent within ten minutes, and agrees only while the registry still says the same |
| `LifecycleRequests.ConsumesExactlyWhen` | internal/installation/postgres/access.go:139-212 | in every reachable state a consent is used exactly by its owner, with its digest, within ten minutes, while its release is eligible, once, and when no other installation of the app is there |
| `LifecycleRequests.ConsumedIsPending` | internal/installation/postgres/access.go:165-212 | it becomes a pending installation of exactly that release with a grant that waits, announced and on record |
| `LifecycleRequests.ListedIsEligibleExactlyWhen` | internal/installation/service/access.go:97-140 | a release of the closed policies is eligible exactly as long as the registry says the very same of it and it is on the list of what may be granted |
| `LifecycleRequests.ManagedIsEligibleExactlyWhen` | internal/installation/service/access.go:79-95 | a release of the policies with registries of their own is eligible exactly as long as that registry says the very same, it has its policy's shape, and whatever else the policy asks is in order |
| `LifecycleRequests.DigestTellsApart` | internal/installation/domain/intent.go:97-132 | a digest belongs to one intent, owner, release and time |
| `LifecycleRequests.TokenWorksExactlyWhen` | internal/installation/postgres/access.go:314-355 | in every reachable state a token is accepted exactly when it was issued for this installation of this app, is neither revoked nor expired at either reading of the clock, and the release is still eligible |
| `LifecycleRequests.TokenReplacesTheOthers` | internal/installation/postgres/access.go:291-304 | a new token is good for 900 seconds and revokes all earlier ones of its installation, and nobody else's |
| `LifecycleRequests.ConnectsExactlyWhen` | internal/oauth/service.go:88-100 | in every reachable state exactly an installation in use whose app the registry has as remote, with the installed version and scopes, may be connected |
| `LifecycleRequests.RetriesExactlyWhen` | internal/installation/postgres/monitor.go:59-107 | in every reachable state an owner's retry is granted exactly after twelve attempts at the revision they saw, an operator's for any row that waits, and all it does is start the cleanup over |
| `LifecycleRequests.ActsExactlyWhen` | internal/installation/service/service.go:76-127 | a first request of the direct path succeeds exactly with a manifest that is no fixture, for a row that is not the consent path's, and with the version, scopes, readiness and free capabilities its action needs; a refusal changes nothing |
| `LifecycleRequests.ActedAsAsked` | internal/installation/domain/installation.go:31-84 | an install leaves a new pending row, a start an active one, a removal one out of use, through disabling for the remote app; what is already so stays as it is |
| `LifecycleRequests.IntentRepeatsAnswerTheRecord` | internal/installation/postgres/replay.go:13-42 | a recorded key answers its record to the very same request and Conflict to any other, whatever the registry says by now |
| `LifecycleRequests.AccessRepeatsShowTheInstallation` | internal/installation/postgres/access.go:97-117 | the same of access requests, which show the installation as it is now |
| `LifecycleRequests.DirectRepeatsAnswerTheReceipt` | internal/installation/postgres/repository.go:68-76 | a recorded key of the direct path answers its receipt to the same action and Conflict to any other, and changes nothing |
| `LifecycleResults.TokenIssuedExactlyWhen` | internal/installation/service/access.go:249-274 | a first token request succeeds exactly for an active, eligible installation with a token policy |
| `LifecycleResults.UninstallAlwaysWorks` | internal/installation/service/access.go:235-247 | the owner can always uninstall, which leaves no grant and no live token |
| `LifecycleResults.TokensServeOneActiveInstallation` | internal/installation/postgres/access.go:291-304 | at most one unrevoked token per installation, always of an active one with its exact scopes |
| `LifecycleResults.StatusOnlyMovesForward` | internal/installation/domain/installation.go:31-84 | every installation id only moves along pending, active, disabling, uninstalled |
| `LifecycleResults.RetiredStaysRetired` | internal/installation/postgres/access.go:314-355 | after leaving service an id passes no token check and routes nothing, even after a reinstallation |
| `LifecycleResults.RevocationRefusesExactly` | migrations/0012_consent_installation_access.sql:47-58 | the trigger's revocation refuses every token of this installation and changes no answer about another |
| `LifecycleResults.StaleWorkersCannotOvercount` | internal/installation/postgres/remote.go:74-116 | with any number of workers holding stale readings, attempts stay within twelve and each revision is charged at most one failure |
| `LifecycleResults.ChargesWaitByTheCount` | internal/installation/postgres/remote.go:108-112 | a charged failure counts one attempt more than the row had and waits the backoff of that attempt |
| `LifecycleResults.RemoteUninstallStaysClean` | internal/oauth/service.go:264-282 | an installation that ended through disabling stays cut off, with no open handshake |
| `LifecycleResults.NoticesTellTheWholeLife` | internal/installation/postgres/access.go:277-289 | the notices of an installation are strictly forward and end at its current status |
| `LifecycleReplays.RedundantStutters` | internal/installation/postgres/repository.go:68-76 | a recorded key changes nothing, with the same body or another |
| `LifecycleReplays.RepetitionsLeaveNoTrace` | internal/installation/postgres/access.go:97-117 | removing every repeated request leaves the same final state |
| `LifecycleReplays.RetryNamesTheSameToken` | internal/installation/postgres/access.go:97-117 | over any later run a repeated token request names the token of the first answer with its expiry and says truly whether it still counts |
| `LifecycleReplays.HandshakeWorksOnce` | internal/oauth/postgres/repository.go:33-40 | a handshake lets exactly one callback through over any run |
| `Handshakes.ReturnsExactlyWhen` | internal/oauth/postgres/repository.go:33-40 | over any run a return is accepted exactly when this actor and session began it at the gate, it has not expired, they have not been back, and no cleanup has spent it |
| `Handshakes.BeginsExactlyWhen` | internal/oauth/postgres/repository.go:14-32 | beginning succeeds exactly with a new request, or with the open handshake of this very actor, session and request |
| `Handshakes.CutsOnlyItsOwn` | internal/oauth/postgres/repository.go:66-72 | cutting off an installation spends its open handshakes and touches nobody else's link or handshake |
| `LifecycleLinks.RemoteConsentEndsClean` | internal/installation/service/access.go:237-241 | an uninstalled installation that was consented to as remote is cut off with no open handshake, for good, whatever the registry says by then |
| `LifecycleLinks.UninstallStrandsExactlyWhen` | internal/installation/service/access.go:235-247 | one uninstall of the consent path under any registry: of whatever was connected exactly what was not consented to as remote would stay connected |
| `LifecycleLinks.RemovalStrandsExactlyWhen` | internal/installation/domain/installation.go:59-73 | one removal of the direct path under any answer: of whatever was connected exactly what was not read as remote would stay connected |
| `LifecycleLinks.UninstallSettlesTheLink` | internal/oauth/service.go:88-100 | after an uninstall no later turn touches the connection: nothing reconnects it, nothing repairs it |
| `Registry.OneManifestForGood` | migrations/0001_local_vertical_slice.sql:24-31 | whatever is published between two answers about an app, they are the same manifest |
| `Registry.Releases.Insert` | internal/app/repository/postgres.go:21-31 | a release is published under its app and version once; a second one changes nothing |
| `Registry.Releases.List` | internal/app/service/registry.go:18-32 | the verified manifests of all rows, or a refusal when one does not verify |
| `Registry.Releases.Find` | internal/app/service/registry.go:33-44 | the one manifest of the app, whatever the order of the rows |
| `LifecycleRegistry.PlayIsReachable` | internal/installation/service/intents.go:53-85 | what the lifecycle reaches on the registry's answers it reaches on free ones, so every result about its runs holds there |
| `LifecycleRegistry.ConsentedIsRegistered` | internal/installation/service/intents.go:53-85 | in every state of every play a consent names the one manifest the registry has for its app, so the uninstall of the consent path and everything that asks the registry read the same profile |
| `LifecycleRegistry.OpenedMeansInService` | internal/oauth/service.go:88-100 | in every state of every play whoever is connected, or has a handshake open, is an installation of a remote app that is not uninstalled yet |
| `LifecycleRegistry.UninstalledIsCutOff` | internal/oauth/service.go:264-282 | in every state of every play an uninstalled installation, of either path and also one that was replaced, has no connection and no open handshake |
| `LifecycleRegistry.RemoteAppEndsClean` | internal/installation/postgres/remote.go:74-105 | the uninstalled installation of a remote app has had its connection cut and every handshake spent |
| `LifecycleRegistry.RegisteredIsEligible` | pkg/appmanifest/manifest.go:45-95 | the release of every app the registry answers is on the closed list of the lifecycle |
| `LifecycleNotices.PublishableExactlyWhen` | internal/installation/postgres/access.go:129-137 | a consent-path notice can be published if and only if its actor is a token |
| `LifecycleNotices.OtherNoticesDieAtOnce` | internal/platform/outboxpg/outbox.go:46-67 | any other notice is dead after its first attempt, and again after a replay |
| `LifecycleNotices.AddressesAreNotPublished` | internal/installation/service/intents.go:40 | an e-mail address is an accepted actor of that kind |
| `LifecycleNotices.NoticesNameTheStatus` | internal/installation/postgres/access.go:277-289 | a notice says under its type and subject what became of the installation |
| `ReferenceOAuth.AtMostOneLiveGrant` | internal/referenceapp/server.go:239-247 | one unrevoked grant per tenant and installation, tokens pairwise distinct, no rotated token current |
| `ReferenceOAuth.CodeWorksOnce` | internal/referenceapp/server.go:228-242 | a code is redeemed at most once (section 4.1.2 of RFC 6749) |
| `ReferenceOAuth.ReplayKillsTheGrant` | internal/referenceapp/server.go:248-275 | a rotated refresh token is refused and its grant revoked for good (section 10.4 of RFC 6749) |
| `ReferenceOAuth.RevocationIsFinal` | internal/referenceapp/server.go:303-339 | revocation ends every earlier code, access token and refresh token of the installation |
| `ReferenceOAuth.SuccessIsUsable` | internal/referenceapp/server.go:276-289 | a success leaves its tokens live on exactly one grant, which keeps its webhook secret |
| `OAuthCodes.RedeemsExactlyWhen` | internal/referenceapp/server.go:228-247 | over any run tokens are handed out for a code exactly when it was asked for with this redirect and challenge, the owner's first answer to its form allowed it within 300 seconds, it is presented within them with the verifier of 43 to 128 characters, and since then it was neither redeemed nor its installation revoked (section 4.6 of RFC 7636) |
| `OAuthGrants.BearerWorksExactlyWhen` | internal/referenceapp/server.go:290-302 | over any run an access token is accepted exactly as the latest of a living grant, for 300 seconds and within eight hours of the grant |
| `OAuthGrants.RefreshWorksExactlyWhen` | internal/referenceapp/server.go:248-275 | over any run a refresh token is exchanged exactly as the latest of a living grant within eight hours; a grant lives until another one, a revocation or a replay |
| `ReferenceOAuth.Server.Allow` | internal/referenceapp/server.go:166-181 | a code is approved or used up once, with its form, before it expires |
| `ReferenceOAuth.Server.Exchange` | internal/referenceapp/server.go:228-247 | redeeming needs an approved, unused, live code with its verifier and redirect, and replaces every grant of the installation (section 4.6 of RFC 7636) |
| `ReferenceOAuth.Server.FindGrant` | internal/referenceapp/server.go:250 | the grant found holds this refresh token, is not revoked and not expired; none found means none does |
| `ReferenceOAuth.Server.Rotate` | internal/referenceapp/server.go:248-289 | rotation, or refusal with the replay penalty |
| `JsonTrees.ReadsBack` | pkg/catalogmanifest/catalog.go:161-206 | every value is read back from its tokens, whatever follows |
| `JsonTrees.ReadIsSpelled` | pkg/catalogmanifest/catalog.go:161-206 | what is read is spelled by exactly the tokens consumed |
| `JsonTrees.SpelledExactlyWhenRead` | pkg/catalogmanifest/catalog.go:204-210 | a token text is one value exactly when reading ends at its end |
| `UniqueJson.Decoder.Next` | pkg/catalogmanifest/catalog.go:162-170 | the decoder's own guarantee: delimiters nest and match, keys are strings |
| `UniqueJson.CatalogValue` | pkg/catalogmanifest/catalog.go:164-203 | the recursive check accepts exactly a readable value without repeated keys within the remaining depth, and stops exactly past it |
| `UniqueJson.CatalogUnique` | pkg/catalogmanifest/catalog.go:161-211 | accepted exactly: one value, no key repeated in any object, at most eight levels, nothing after it |
| `UniqueJson.ResourceValue` | pkg/uiresource/manifest.go:86-126 | the same without a depth bound, with both closing delimiters checked |
| `UniqueJson.ResourceUnique` | pkg/uiresource/manifest.go:84-131 | accepted exactly: one value, no key repeated in any object, nothing after it |

## Left out

- HTTP, Connect and chi handlers, cookies, rate limits, dashboards: transport and user interface.
- Cryptography: signatures, sealed secrets and token randomness appear only as checks that hold or not.
- Postgres, JetStream and pgx themselves; statement failures other than unique keys and lost commits appear as rollbacks, and broker retention and deduplication windows do not appear.
- ReferenceStore.Server.Execute: the expiry of grants and access tokens is one environment choice there; it is modelled in ReferenceOAuth.
- CapabilityStore.Repository.Execute: the runtime is a function of the current resource; its own waiting time and the gate around it are environment choices of the pipeline.
- InstallationStore.Repository.Retry: the owner's request log is part of the lifecycle machine, not of the class.
- Access-scope declarations and their closure, manifest field checks, permission lists, pagination, counts: single-branch validation and reads.
- Review machines of integrations, shipping assignments, UI and UI-resource releases, test assignments, and the embedded pilot: near-identical small graphs; their verdicts enter as answers.
- Key-management, sessions, portal identity, catalog publication, configuration and local files.
- Liveness: delivery and cleanup are shown to end, to agree once everything was delivered, and to leave every deliverable event a way to arrive; not that workers are scheduled.
