# Payments, outbox, ledger, recruitment, sessions and rate limits: a verified model

This Dafny project models the backend of a marketplace in which owners publish missions and jobs, fund them through a payment provider,
and settle or refund them. Money moves through three independent writers (owners' requests, outbox workers, provider webhooks) that update
the same rows and post the same double-entry journals. The project proves what holds of the tables in every interleaving of those writers.

## How it is built

| file | what it holds |
|---|---|
| `Money.dfy` | fees in cents, the four journals, the decimal text of amounts |
| `Schema.dfy` | the tables, one record per row, with the unique indexes as maps |
| `Transactions.dfy` | each SQL transaction as a function: first what it answers (its guards, in the order of the code), then what it writes |
| `Protocol.dfy` | the transition system: requests, offers, recruitment, webhooks, claims, provider calls, commits, failure reports |
| `Outcomes.dfy`, `Evolution.dfy`, `Ledger.dfy`, `Invariant.dfy`, `Preservation.dfy`, `Reachability.dfy` | the joint invariant over all tables and its preservation by every step |
| `Safety.dfy` | the theorems about whole runs |
| `References.dfy` | provider references: present, distinct, the settlement's that of its payment |
| `RequestEffects.dfy`, `CommitEffects.dfy`, `WebhookEffects.dfy`, `BoardEffects.dfy` | for every reachable state, row by row: exactly which requests, commits, failure reports, webhooks and job or application steps take effect, and all they write |
| `RefundTracking.dfy`, `OtherKeyRun.dfy` | refund rows against payments, and the run in which a second key goes wrong |
| `JobInvariant.dfy`, `ModerationRun.dfy` | jobs against payments, the run in which moderation goes wrong |
| `Hiring.dfy`, `Recruitment.dfy` | hired candidates against jobs, single hire, the application lifecycle |
| `SameKeyRun.dfy` | two payments under one key |
| `Leases.dfy` | rows in processing say since when |
| `Repository.dfy`, `Worker.dfy`, `Server.dfy` | the same transactions as methods on tables that change in place, with rollback, loops and a worker, proved against the functions |
| `Backoff.dfy` | the retry delay |
| `Offline.dfy`, `OfflineEffects.dfy`, `OfflineAdapter.dfy`, `Simulation.dfy` | the offline adapter, what each of its commands does, and the proof that it agrees with the SQL protocol |
| `Sessions.dfy`, `SessionEffects.dfy`, `SessionStore.dfy` | refresh-token families, session versions, password resets and rehashes, suspensions |
| `RateLimit.dfy`, `RateQuota.dfy` | the fixed-window limiter in its in-process and its SQL form, what its forgetting changes, and how many requests it admits |

One SQL transaction is one atomic step; a throw rolls it back. A worker's claim gives it a ticket (event, lease token, payload) that stays
usable for ever, so a crash is a ticket never used, a stalled worker one used late, and a lost acknowledgement one used twice. The provider
may answer anything at any time. Provider references, ids, lease tokens and token hashes that the source draws at random are numbers from
a counter; times and the jitter of the backoff are arbitrary.

## What the proofs found

- A refund retried under a different key cannot be finished by the worker: the outbox upsert keeps the payload of the first request, so the
  event goes on naming the first refund row (backend/src/repository/payment_refunds.js:43). `RefundTracking.WorkerCanFinishIff` gives the
  exact condition for one request, `RefundTracking.TrackingIff` the one for whole runs, `OtherKeyRun.OtherKeyCannotFinish` a run and
  `OtherKeyRun.OtherKeyIsIgnored` what follows. With one key per payment rows and payment move together.
- `moderateJob` does not count SETTLED among the locked states (backend/src/repository/admin.js:46). `JobInvariant.ModerationIff` shows
  that moderation keeps jobs and payments consistent exactly when the job is not settled, `ModerationRun.SettledJobIsModerated` a run in
  which it does not. Whole runs keep them consistent exactly when no step moderates a settled job
  (`JobInvariant.JobsFollowPaymentsIff`), and hired candidates providers exactly when no step moderates a settled job with a hire
  (`Recruitment.HiredIsProviderIff`). That nobody else is hired, and that a hire is never undone, holds in every run.
- Idempotency keys are unique per payer only (backend/src/db/migrations/001_initial_schema.js:84-99): two payers with the same client
  key make hold calls under one key for two payments. `SameKeyRun.TwoPaymentsOneKey` is a run, `Safety.OneKeyOnePaymentIff` the exact
  condition.
- Amounts below 5 cents (mission) or 2 cents (job) have a zero platform fee, which the ledger table refuses: the SQL form rolls such a
  funding back while the offline adapter accepts it. `Money.PostableIffLargeEnough` and `Simulation.FundingAgreesIff` are exact.
- A retried hold rebuilds its payload from the base amount, because the mapped row has no fee columns
  (backend/src/repository/payment_funding.js:30); the upsert discards it, and every provider call still asks for the employer charge
  (`Safety.CallsAreIdentical`).
- A login that finds an outdated password hash stores the password it has verified under a new hash, without looking at the row again
  (backend/src/routes/auth_routes.js:49-53). When a password reset takes effect in between, the old password comes back:
  `SessionEffects.OldPasswordReturns` is a run, and `SessionEffects.NewPasswordHoldsIff` shows that a reset lasts exactly when no such
  login is under way.
- A failed hold and a failed refund that are queued again keep their count of attempts, while a release starts afresh
  (`RequestEffects.FundAgain`, `RequestEffects.RefundAgain`, `RequestEffects.ReleaseOutcome`): with the same bound, the next failure of a
  hold or refund gives it up at once (`CommitEffects.FailureOutcome`).
- The replay of an earlier payment under a used key (backend/src/repository/payment_funding.js:35-40) is never reached in a run: a used key
  on a job without a payment belongs to another job, so the answer is always a conflict (`RequestEffects.FundFirst`).
- The in-process limiter evicts by the span of whoever calls (backend/src/rate_limit.js:29): that changes no answer exactly when all
  callers share a span (`RateLimit.EvictionInvisibleIff`). The SQL limiter deletes rows after ten minutes whatever their span
  (backend/src/rate_limit.js:63-65): that changes no answer exactly when no span is longer (`RateLimit.CleanupInvisibleIff`).
- General requests and health probes of a client share one key (backend/src/observability.js:84-85) but not their span
  (backend/src/config.js:47-50): a probe begins a new window for both. In an interval of one span a client gets at most 2 * limit - 1
  requests through exactly when no span in use is shorter (`RateQuota.QuotaHoldsIff`; in SQL also no longer than the age of the
  clean-up, `RateQuota.SqlQuotaHoldsIff`), and always within the shortest span
  (`RateQuota.LocalFewerThanTwice`); `RateQuota.ProbesRenewGeneralWindows` is the default configuration.
- `PAYMENT_TRANSITIONS` (backend/src/domain/payment_state.js:3-11) has no REFUND_PENDING and no edge RELEASE_FAILED to RELEASED. The model
  follows the repository; `Safety.RefinesTransitionTable` maps REFUND_PENDING to HELD and reads the webhook's jump as two edges.

## Model

| member | source | states |
|---|---|---|
| Money.FeesAreExact | backend/src/financial.js:26-35 | the charge and the payout of every base: ten per cent of it more and ten less for a mission, thirty per cent more and nothing less for a job, each to the nearest cent and up at half a cent; the platform keeps the difference; 1 <= payout <= base <= charge |
| Money.JournalsBalance | backend/src/financial.js:64-100 | all four journals of any breakdown balance |
| Money.AssertBalanced | backend/src/financial.js:57-62 | the two accumulated sums agree iff the journal nets to zero |
| Money.PostableIffLargeEnough | backend/src/db/migrations/001_initial_schema.js:105-109 | the ledger's column checks take the funding and refund journals iff the base is at least 5 cents (mission) or 2 (job), and release and payout always |
| Money.PrintThenParse | backend/src/financial.js:15-24 | every valid amount, printed as a number, parses back to the same cents |
| Money.ParsesExactly | backend/src/financial.js:15-22 | the parser takes exactly digits with at most a dot and one or two more digits, from one cent to a thousand million, and answers the cents the digits stand for |
| Money.PrintDropsZeros | backend/src/financial.js:24 | the printed number has a dot only before a fraction, and no zero at its end |
| Money.MoneyFieldRoundTrip | backend/src/policies/validation.js:39-49 | the request validation accepts exactly what the fee code parses, and it re-reads to the same cents |
| Ledger.PostKeepsBalance | backend/src/db/migrations/001_initial_schema.js:116-131 | a balanced journal under a new id leaves every journal id balanced |
| Evolution.NextGrows | backend/src/repository/outbox.js:13-23 | every step of every party moves payments along fixed edges, keeps payloads, parties and fees, appends to the ledger, and replaces a lease token only by a new one |
| Preservation.FundKeepsCore | backend/src/repository/payment_funding.js:20-61 | creating or retrying a payment keeps the joint invariant |
| Preservation.RequestKeepsCore | backend/src/repository/payment_refunds.js:20-43 | a queued refund keeps the joint invariant |
| Preservation.QueueReleaseKeepsCore | backend/src/repository/outbox.js:38-53 | queueing or resetting a release keeps the joint invariant |
| Preservation.FinishReleaseKeepsCore | backend/src/repository/outbox.js:98-106 | the release writes, by worker or webhook, keep the joint invariant |
| Preservation.FinishRefundKeepsCore | backend/src/repository/payment_refunds.js:58-63 | the refund writes, by worker or webhook, keep the joint invariant |
| Preservation.FailWithKeepsCore | backend/src/repository/outbox.js:128-137 | a failure report, terminal with its compensation or not, keeps the joint invariant |
| Preservation.WebhookKeepsCore | backend/src/repository/payment_webhooks.js:37-84 | every webhook keeps the joint invariant |
| Reachability.ReachableWorldOk | backend/src/outbox_worker.js:13-30 | after any sequence of steps of any parties the joint invariant of payments, refunds, settlements, outbox, ledger, leases and provider calls holds |
| Safety.LedgerFollowsStatus | backend/src/repository/outbox.js:96-103 | in every reachable state the four account balances of every payment are a function of its status |
| Safety.EveryJournalBalances | backend/src/db/migrations/001_initial_schema.js:116-131 | in every reachable state every journal id balances |
| Safety.OneFundingOneEnding | backend/src/repository/payment_webhooks.js:48-84 | exactly one funding journal; one release with payout iff released, one refund iff refunded, never both; a settlement iff released, for the payout |
| Safety.TerminalIsFinal | backend/src/repository/payment_refunds.js:55-56 | RELEASED and REFUNDED are absorbing: row, journals and settlement are the same after any continuation |
| Safety.SettlementIsFinal | backend/src/repository/payment_webhooks.js:64-69 | a settlement, once there, is the same row after any continuation, although the upsert would rewrite its reference |
| Safety.DealIsFixed | backend/src/repository/payment_funding.js:22-24 | parties, amounts and currency never change, a key never once set, the provider reference at most once, when the hold is confirmed |
| Safety.PaymentsAreUnique | backend/src/db/migrations/001_initial_schema.js:84-99 | one payment per job, and one per payer and non-empty key |
| Safety.FundingIsIdempotent | backend/src/repository/payment_funding.js:20-34 | funding a job again changes nothing unless its hold failed, and never adds a payment, an event or a journal |
| Safety.NothingIsStranded | backend/src/repository/outbox.js:132-137 | a waiting payment has a live event, and a failed one an event that is dead and without a lease |
| Safety.CallsAreIdentical | backend/src/outbox_handlers.js:21-38 | all provider calls of one kind for one payment are equal, with the stored charge, currency, reference and a key |
| Safety.OneKeyOnePaymentIff | backend/src/db/migrations/001_initial_schema.js:84-99 | two hold calls, or two release calls, under one key are for one payment iff the payers are the same and the key is the default of both or of neither |
| SameKeyRun.TwoPaymentsOneKey | backend/src/repository/payment_funding.js:57-58 | a run in which two payers use the same client key and the provider is called under it for two payments |
| Safety.RefinesTransitionTable | backend/src/domain/payment_state.js:3-11 | the statuses a payment goes through along any run are themselves a path of the table: every step takes no edge or one, and two only from RELEASE_FAILED to RELEASED |
| Safety.FencedTicketIsHarmless | backend/src/repository/outbox.js:9 | a ticket whose lease was replaced changes no table, completing or failing |
| Safety.ClaimFencesOlder | backend/src/repository/outbox.js:75-79 | a claim replaces the lease of every earlier ticket of the event |
| Safety.FencedForEver | backend/src/repository/outbox.js:123 | no later step revives a replaced lease |
| Safety.ReclaimedIsHarmless | backend/src/repository/outbox.js:63-82 | after a re-claim and any continuation an earlier ticket changes no table |
| Safety.FailureTakesEffectOnce | backend/src/repository/outbox.js:119-131 | after its first failure report a ticket changes no table any more |
| Safety.HeldWebhookNeedsPlaceholder | backend/src/repository/payment_webhooks.js:8-12 | in every reachable state a payment waiting for its hold ignores every held webhook that does not name its placeholder, with another reference or none |
| Safety.WrongReferenceIsRefused | backend/src/repository/payment_webhooks.js:33-35 | a hold or release webhook under another reference than the stored one changes nothing |
| Safety.WebhookCountsOnce | backend/src/repository/payment_webhooks.js:24-46 | once a webhook id is recorded, no webhook of that id changes anything in any later state |
| Safety.OnlyTheOwnerPays | backend/src/repository/payment_funding.js:17 | a fund, refund or release request of anybody but the job's owner changes nothing |
| Safety.FundedByOwnerForProvider | backend/src/repository/payment_funding.js:42-52 | a new payment is between owner and provider with the fees of its kind; of the job's offers only the chosen one is accepted and none stays pending |
| Safety.AcceptedOfferGetsJob | backend/src/repository/payment_lifecycle.js:31-64 | the accepted offer's provider gets the job, no other offer of the job stays pending, other jobs' offers are untouched |
| References.ReachableRefsOk | backend/src/repository/payment_webhooks.js:8-12 | in every reachable state payments have distinct references and never none, a settlement has that of its payment, and a refund that is not through has none |
| RequestEffects.FundFirst | backend/src/repository/payment_funding.js:9-63 | every funding request for a job without a payment: exactly which are accepted, what each other is refused for, and all an accepted one writes: payment, job, offers, event, journal |
| RequestEffects.FundAgain | backend/src/repository/payment_funding.js:15-34 | every funding request for a job that has a payment: the refusals, the replay, and the failed hold that is queued again under the stored key or else the request's |
| RequestEffects.FailedHoldIsRetriedIff | backend/src/repository/payment_funding.js:22-32 | the owner's request for a failed hold is accepted iff the job is open and the request brings no key, the stored key, or an unused one where none is stored; the event can then be claimed at once |
| RequestEffects.RefundAcceptedIff | backend/src/repository/payment_refunds.js:12-44 | a refund request gets a refund under way iff it is the owner's, for a held payment and the whole amount, and its key has no row of the payment (and the new id is free) or one that failed; row pending without reference, event claimable |
| RequestEffects.RefundRefused | backend/src/repository/payment_refunds.js:13-19 | what every other request is refused for |
| RequestEffects.RefundAgain | backend/src/repository/payment_refunds.js:21-36 | a failed row of the same key is reopened with the payment's own event, any other row is the answer |
| RequestEffects.RefundFirst | backend/src/repository/payment_refunds.js:37-43 | a request under a new key inserts a pending row for the whole amount, which the first event names |
| RequestEffects.AcceptOutcome | backend/src/repository/payment_lifecycle.js:19-30 | a delivery is accepted exactly when the job is delivered or under review and the payment held; job completed, payment waiting for its release |
| RequestEffects.ReleaseOutcome | backend/src/repository/outbox.js:28-56 | a release is queued exactly for the owner of a completed job whose payment waits for it or whose release failed; event pending, claimable, with all attempts ahead |
| CommitEffects.HoldCommit | backend/src/repository/outbox.js:5-26 | a hold commit under the current lease: a waiting payment is held under the new reference unless another has it, one held under the same reference finishes the event, under another it is refused |
| CommitEffects.ReleaseCommit | backend/src/repository/outbox.js:84-109 | a release commit under the current lease: a waiting payment is released under its stored reference with job, settlement and two journals, a released one finishes the event |
| CommitEffects.RefundCommit | backend/src/repository/payment_refunds.js:47-66 | a refund commit under the current lease: payment, named row, job and ledger are refunded when both wait, unless another refund has the reference |
| CommitEffects.FailureOutcome | backend/src/repository/outbox.js:119-140 | a failure report under the current lease puts the event back for a delay in the exact range of its attempts, or after the last attempt gives up the event, the payment that waited for it and the row it names, and nothing else |
| CommitEffects.ClaimOutcome | backend/src/repository/outbox.js:63-82 | an event is claimed exactly when it is pending or its lease is over and its delay is over: one attempt more, under a lease nobody had |
| CommitEffects.CallOutcome | backend/src/outbox_handlers.js:21-38 | in every reachable state a worker's call is the one its claimed row spells out: amount, currency, reference, and a key that is never empty |
| CommitEffects.AttemptOutcome | backend/src/outbox_handlers.js:18-84 | what one attempt comes to, whatever the provider answers: the payment moves exactly when the answer confirms, with a reference where one is needed, and the commit's conditions hold; otherwise it is a failure |
| WebhookEffects.HeldWebhook | backend/src/repository/payment_webhooks.js:33-49 | a new held webhook holds exactly a payment that waits, named by its placeholder; under the stored reference of another payment it is only recorded, under another reference refused |
| WebhookEffects.ReleasedWebhook | backend/src/repository/payment_webhooks.js:50-69 | a new released webhook releases exactly a payment that waits for it or whose release failed, under the stored reference, with job, settlement and two journals |
| WebhookEffects.RefundedWebhook | backend/src/repository/payment_webhooks.js:70-84 | a new refunded webhook refunds exactly a payment that waits for it, under any reference no other refund has or none: latest pending row, payment, job, ledger; any other payment is only recorded |
| WebhookEffects.WebhookAnswer | backend/src/repository/payment_webhooks.js:22-87 | the answer to every webhook: duplicate, unknown payment, reference mismatch, taken refund reference, or processed |
| BoardEffects.JobMoves | backend/src/application/use_cases/job_use_cases.js:8-10 | only a draft is published, only a funded job whose payment was read starts, only a job in progress is delivered |
| BoardEffects.StartNeedsHeldPayment | backend/src/routes/job_handlers.js:127-146 | in every reachable state a start gets past its look at the payment exactly when the payment is held |
| BoardEffects.Moderation | backend/src/repository/admin.js:39-50 | moderation sets a draft, published, settled or cancelled job to draft, published or cancelled, and refuses everything else |
| BoardEffects.Deletion | backend/src/repository/admin.js:53-63 | a job is deleted, with its offers and applications and nothing else, exactly while it is a draft or published and was never paid for |
| BoardEffects.OfferAcceptance | backend/src/repository/payment_lifecycle.js:31-64 | an offer is accepted exactly by the owner of its published job while it is pending; the other pending offers of the job are rejected |
| BoardEffects.RecruitMoves | backend/src/repository/applications.js:6-56 | every step of a recruitment: exactly from which statuses and by whom it is allowed, where it leads, and that nothing else changes |
| RefundTracking.RefundRowFollowsPayment | backend/src/repository/payment_refunds.js:20-43 | with one non-empty key per payment there is at most one refund row: PENDING iff REFUND_PENDING, REFUNDED iff REFUNDED, FAILED only after the payment was restored |
| RefundTracking.TrackingIff | backend/src/repository/payment_refunds.js:20-43 | in any run, whatever the keys, one refund row moves together with its payment all the way iff every accepted request is the first or reopens the row the event names |
| RefundTracking.WorkerCanFinishIff | backend/src/repository/payment_refunds.js:43 | an accepted refund request leaves the worker a refund it can finish iff it is the first or reopens the row the event names; otherwise the commit is refused and changes nothing |
| OtherKeyRun.OtherKeyCannotFinish | backend/src/repository/payment_refunds.js:43 | a run of eight steps after which the payment waits for a refund no worker can finish |
| OtherKeyRun.OtherKeyIsIgnored | backend/src/repository/payment_refunds.js:24-25 | two steps later the worker has given up, the payment is held again, and a further request under the second key is answered as a replay and queues nothing |
| JobInvariant.JobsFollowPayments | backend/src/routes/job_handlers.js:127-146 | in every run without moderation of settled jobs the status of a job is one its payment's status allows, although start reads the payment before it writes |
| JobInvariant.JobsFollowPaymentsIff | backend/src/repository/admin.js:39-50 | jobs fit their payments all along a run iff no step moderates a settled job |
| JobInvariant.ModerationIff | backend/src/repository/admin.js:39-50 | moderation keeps the job invariant iff the job is not settled |
| ModerationRun.SettledJobIsModerated | backend/src/repository/admin.js:46 | a run of nine steps that settles a job, and the moderation that cancels it while its payment stays released |
| Recruitment.SingleHire | backend/src/repository/applications.js:19-56 | in every run, moderation included, at most one application of a job is accepted |
| Recruitment.FewChanges | backend/src/repository/applications.js:6-18 | every change raises the rank of an application, so it changes at most five times in any run, and its candidate never |
| Recruitment.HireIsForGood | backend/src/repository/applications.js:41-52 | in every run, moderation included, an accepted application stays as it is to the end of every continuation |
| Recruitment.HiredIsProviderIff | backend/src/repository/applications.js:35-53 | all along a run every hired candidate is the provider of the job, which is past publication, iff no step moderates a settled job for which somebody is hired |
| Recruitment.HiredIsProvider | backend/src/repository/applications.js:35-53 | so at the end of every such run the hired candidate is the provider |
| Hiring.HireModerationIff | backend/src/repository/admin.js:39-50 | moderation keeps hires and jobs consistent iff the job is not settled or nobody is hired for it |
| Recruitment.OnlyThePartiesMove | backend/src/repository/applications.js:18-31 | invitations, offers and hires of anybody but the job's owner, and withdrawals of anybody but the candidate, change nothing |
| Repository.Repository.InsertJournal | backend/src/repository/payment_funding.js:53-54 | the loop ends with the whole journal posted iff it is balanced and every entry one-sided |
| Repository.Repository.FundJobAtomic | backend/src/repository/payment_funding.js:9-63 | tables and answer are those of FundJob, with everything rolled back when a late write is refused |
| Repository.Repository.SelectOffer | backend/src/repository/payment_funding.js:46-47 | the two updates accept the chosen offer and reject the other pending ones of the job |
| Repository.Repository.UpdateJobSimple | backend/src/repository/payment_lifecycle.js:9-18 | tables and answer are those of UpdateJob |
| Repository.Repository.TransitionJobWithPayment | backend/src/repository/payment_lifecycle.js:19-30 | tables and answer are those of AcceptDelivery |
| Repository.Repository.AcceptOfferAtomic | backend/src/repository/payment_lifecycle.js:31-64 | tables and answer are those of AcceptOffer |
| Repository.Repository.ModerateJob | backend/src/repository/admin.js:39-50 | tables and answer are those of Moderate |
| Repository.Repository.CreateRefundAtomic | backend/src/repository/payment_refunds.js:8-46 | tables and answer are those of CreateRefund |
| Repository.Repository.CompletePaymentRefundOutbox | backend/src/repository/payment_refunds.js:47-66 | tables and answer are those of CompleteRefund, rolled back when the journal is refused |
| Repository.Repository.CompletePaymentCreateHoldOutbox | backend/src/repository/outbox.js:5-26 | tables and answer are those of CompleteHold |
| Repository.Repository.EnqueuePaymentRelease | backend/src/repository/outbox.js:28-56 | tables and answer are those of EnqueueRelease |
| Repository.Repository.ClaimOutboxEvent | backend/src/repository/outbox.js:63-82 | a claimable row is claimed under a new lease, or there is none and nothing changes |
| Repository.Repository.CompletePaymentReleaseOutbox | backend/src/repository/outbox.js:84-109 | tables and answer are those of CompleteRelease, rolled back when a journal or the settlement is refused |
| Repository.Repository.FailOutboxEvent | backend/src/repository/outbox.js:119-140 | the chain of guarded updates ends in the tables of FailEvent |
| Repository.Repository.PickPendingRefund | backend/src/repository/payment_webhooks.js:71-73 | the row found is a latest pending refund of the payment, and none is found iff there is none |
| Repository.Repository.ApplyPaymentWebhookAtomic | backend/src/repository/payment_webhooks.js:22-87 | tables and answer are those of ApplyWebhook for the row picked, with the record of the webhook rolled back on an exception |
| Repository.Repository.TransitionJobApplication | backend/src/repository/applications.js:6-10 | tables and answer are those of TransitionApplication |
| Repository.Repository.TransitionOwnApplication | backend/src/repository/applications.js:18 | tables and answer are those of TransitionCandidateApplication |
| Repository.Repository.TransitionEmployerApplicationAtomic | backend/src/repository/applications.js:19-56 | tables and answer are those of TransitionEmployerApplication; a hire of a job that is not hirable is undone |
| Worker.ProcessOutboxEvent | backend/src/outbox_handlers.js:18-84 | a confirmed call whose commit goes through is committed; everything else ends in a failure report under the same lease |
| Worker.ProcessOne | backend/src/outbox_worker.js:13-19 | one claim and one processing of what was claimed, or nothing claimable and nothing changed |
| Worker.WorkerTakesProtocolSteps | backend/src/outbox_handlers.js:18-84 | whatever the worker does to the tables, two steps of the protocol do, with one provider call |
| Worker.AttemptProgress | backend/src/repository/outbox.js:119-131 | an attempt ends the event or uses up one attempt, and the last one gives it up |
| Worker.FundingIsReady | backend/src/repository/payment_funding.js:25-28 | a funded or retried payment has an event that can be claimed at once |
| Worker.RequestIsReady | backend/src/repository/outbox.js:41-51 | the event of an accepted refund or release request can be claimed at once, although the upsert would leave a finished one alone |
| Worker.DriveToEnd | backend/src/outbox_worker.js:21-30 | whatever the provider answers, an event ends done or given up after at most maxAttempts - attempts calls, one at least, each claimed when the row can be claimed |
| Leases.ReachableIsLocked | backend/src/repository/outbox.js:63-79 | in every reachable state a row in processing says since when, so its lease can end |
| Backoff.DelayRange | backend/src/repository/outbox.js:111-117 | the exact range of the delay for every number of attempts and every 16-bit jitter |
| Backoff.DelayIsNearest | backend/src/repository/outbox.js:111-117 | the delay is 5 * 2^(attempts - 1) seconds, at most 300, times 0.75 + jitter / 131070, to the nearest second, up at a half, and at most 300 |
| Backoff.DelaysGrow | backend/src/repository/outbox.js:111-117 | whatever the jitters, delays grow strictly up to the seventh attempt and lie in [225, 300] from the seventh on |
| Backoff.DelayRangeIsTight | backend/src/repository/outbox.js:111-117 | both ends of every range are reached |
| Backoff.RetryWaits | backend/src/repository/outbox.js:127-131 | a failed event cannot be claimed before its shortest delay is over and can be after its longest |
| Backoff.LeaseIsExclusive | backend/src/repository/outbox.js:66-79 | a claimed event can be claimed again iff its lease is over |
| Server.Server.Handle | backend/src/routes/payment_routes.js:43-156 | every request and webhook the running system handles is a step of a run of the protocol, and leaves every journal of its ledger balanced |
| Server.Server.Work | backend/src/outbox_worker.js:13-19 | every worker pass of the running system is a claim, a call and a commit or failure report of such a run |
| OfflineEffects.FundCommand | backend/src/application/legacy/payment_legacy.js:12-43 | a fund command takes effect exactly for the owner of a published or assigned job without a payment, with a valid amount, an unused key, and the job's provider or a cheapest pending offer; all it writes |
| OfflineEffects.WorkCommands | backend/src/routes/job_handlers.js:127-175 | start, delivery and acceptance: exactly who, in which status of job and payment, and what changes |
| OfflineEffects.RefundCommand | backend/src/application/legacy/payment_legacy.js:45-73 | a refund takes effect exactly for the owner of a held payment, once per key; all it writes |
| OfflineEffects.ReleaseCommand | backend/src/application/legacy/payment_legacy.js:75-99 | a release takes effect exactly for the owner of a completed job whose payment waits for it or whose release failed; all it writes |
| OfflineAdapter.PaymentLegacyAdapter.Fund | backend/src/application/legacy/payment_legacy.js:12-43 | the inserts and the two loops end in the state of OffInsert |
| OfflineAdapter.PaymentLegacyAdapter.RefundPayment | backend/src/application/legacy/payment_legacy.js:45-73 | refused unless held, answered from an earlier refund under the same key, and otherwise refunded at once |
| OfflineAdapter.PaymentLegacyAdapter.ReleasePayment | backend/src/application/legacy/payment_legacy.js:75-99 | payment, job, two journals and settlement end in the state of OffReleasePayment |
| OfflineAdapter.PaymentLegacyAdapter.FindPriorRefund | backend/src/application/legacy/payment_legacy.js:48-51 | a refund of that payment and key is found iff there is one |
| Simulation.CommandSimulates | backend/src/routes/payment_routes.js:43-156 | one fund, start, deliver, accept, refund or release command takes both forms to the same jobs, offers, payments, refunds, settlements and ledger lines |
| Simulation.RunsAgree | backend/src/application/legacy/payment_legacy.js:12-99 | the same for every sequence of commands by anybody on any jobs |
| Simulation.BalancesAgree | backend/src/application/legacy/payment_legacy.js:12-99 | after every such sequence the four account balances of every payment agree |
| Simulation.BoardsAgree | backend/src/application/legacy/payment_legacy.js:12-99 | state and balances agree from any jobs and offers without payments |
| Simulation.FundingAgreesIff | backend/src/repository/payment_funding.js:53-54 | the two forms agree on a new payment iff the amount is one whose journals the ledger table takes |
| Sessions.FamiliesAreLinear | backend/src/repository/auth.js:15-32 | in every run the tokens of a family form a chain of replacements with all but the last revoked |
| Sessions.AtMostOneLive | backend/src/repository/auth.js:15-32 | a family has at most one live token, the end of its chain |
| Sessions.DeadForEver | backend/src/repository/auth.js:33-35 | a family without a live token never has one again |
| Sessions.ReplayKillsFamily | backend/src/repository/auth.js:20-23 | a replayed token is answered as reuse, and no token of its family is accepted in any continuation |
| Sessions.SpentForEver | backend/src/repository/auth.js:45-47 | a revoked token is never accepted again |
| Sessions.VersionsGrow | backend/src/repository/auth.js:40-43 | session versions never go down and users never disappear |
| Sessions.LogoutEndsSessions | backend/src/routes/auth_routes.js:88-94 | after a logout, with anything between its two statements and afterwards, no access or refresh token issued before it began is accepted |
| Sessions.ResetEndsSessions | backend/src/repository/auth.js:60-68 | the same after a password reset |
| Sessions.StatusChangeEndsAccess | backend/src/repository/admin.js:31-34 | after a change of status or a deletion of the account no access token minted before is accepted |
| Sessions.ResetOnce | backend/src/repository/auth.js:60-68 | a reset token changes a password at most once |
| SessionEffects.ResetOutcome | backend/src/repository/auth.js:60-68 | a reset takes effect exactly with an unused token of the user: new password, new version, token used, the user's refresh tokens revoked, nothing else |
| SessionEffects.PasswordChanges | backend/src/repository/auth.js:36-39 | a stored password changes only by registration, a reset that takes effect, deletion, and a login that stores again what it verified |
| SessionEffects.NewPasswordHoldsIff | backend/src/routes/auth_routes.js:49-53 | after a reset the new password stays through every continuation without another reset or the deletion iff no login was about to store another one |
| SessionEffects.OldPasswordReturns | backend/src/routes/auth_routes.js:49-53 | a run of six steps in which a login brings the old password back |
| SessionEffects.SessionsNeedLogins | backend/src/routes/auth_routes.js:47-57 | what logins and registrations read and remember, exactly; no session comes of anything that was not read |
| SessionEffects.RefreshOutcome | backend/src/repository/auth.js:15-32 | every refresh: a live token is replaced by one of its family and user, with an access token if the user is active; a revoked one revokes its family; any other changes nothing |
| SessionEffects.LoginWorks | backend/src/services/session.js:26-45 | a login of an active user gets an access token that is accepted and a refresh token of its own family that can be refreshed |
| SessionEffects.StatusOutcome | backend/src/repository/admin.js:31-34 | a change of status sets what was asked for, under a new session version, and nothing else |
| SessionEffects.SuspendedIsShutOut | backend/src/services/session.js:9-24 | a suspended or deleted user is shut out until the status is set back: no access token is accepted, minted before or after |
| SessionEffects.DeletionOutcome | backend/src/repository/privacy.js:34-51 | a deleted account keeps an inactive row under a new version; its tokens are gone, everybody else's are as they were |
| SessionStore.AuthRepository.RotateRefreshToken | backend/src/repository/auth.js:15-32 | tables and answer are those of Rotate |
| SessionStore.AuthRepository.RevokeRefreshFamily | backend/src/repository/auth.js:33-35 | the update revokes the tokens of the family and no others |
| SessionStore.AuthRepository.RevokeUserRefreshTokens | backend/src/repository/auth.js:45-47 | the update revokes the tokens of the user and no others |
| SessionStore.AuthRepository.ConsumeResetTokenAndChangePassword | backend/src/repository/auth.js:60-68 | tables and answer are those of Consume |
| SessionStore.AuthRepository.UpdatePasswordHash | backend/src/repository/auth.js:36-39 | tables and answer are those of Rehash |
| SessionStore.AuthRepository.BumpUserSessionVersion | backend/src/repository/auth.js:40-43 | the next version, stored and returned, or nothing for an unknown user |
| SessionStore.AuthRepository.SetUserStatus | backend/src/repository/admin.js:31-34 | status and a new session version in one update |
| RateLimit.EvictionInvisibleIff | backend/src/rate_limit.js:28-30 | for callers with two spans, the eviction never changes an answer of any sequence of requests iff the spans are equal |
| RateLimit.CrowdForgives | backend/src/rate_limit.js:28-30 | for every longer and shorter span, ten thousand callers with the shorter one make a refused client admitted |
| RateLimit.EvictionVisibleIff | backend/src/rate_limit.js:28-30 | the next request of an evicted key is answered differently iff its own window is not over and its limit is at least one and used up |
| RateLimit.CleanupInvisibleIff | backend/src/rate_limit.js:42-65 | the upsert with its clean-ups answers every sequence like a limiter that forgets nothing iff no span is longer than the age from which rows are deleted |
| RateLimit.CleanupVisibleIff | backend/src/rate_limit.js:63-65 | the next request of a key whose row is deleted is answered differently iff its window is not over and its limit is at least one and used up |
| RateLimit.CleanupCanForgive | backend/src/rate_limit.js:63-65 | with every longer span a client limited to one request gets two |
| RateQuota.FewerThanTwice | backend/src/rate_limit.js:22-32 | requests of one key with any spans and limits: at most 2 * limit - 1 get through in any half-open interval of the length of the shortest span, for the highest limit |
| RateQuota.LocalFewerThanTwice | backend/src/rate_limit.js:22-32 | the same in process, evictions included, for the shortest span of any caller |
| RateQuota.SqlFewerThanTwice | backend/src/rate_limit.js:40-65 | the same for the SQL limiter, clean-ups included, up to the age they delete from |
| RateQuota.TwiceLessOneIsReached | backend/src/rate_limit.js:22-32 | the bound is reached for every limit and every span of at least two |
| RateQuota.QuotaHoldsIff | backend/src/observability.js:84-85 | for two spans in use, the bound holds for intervals of the first span in every sequence iff the second is not shorter or the limit is zero |
| RateQuota.SqlQuotaHoldsIff | backend/src/rate_limit.js:40-65 | in the SQL limiter iff, besides, the first span is no longer than the age from which rows are deleted |
| RateQuota.FewGetThrough | backend/src/rate_limit.js:22-32 | a request gets through whenever fewer requests of its key than its limit came within its span before it, in the plain limiter and in process with evictions, whatever the other spans and limits |
| RateQuota.SqlFewGetThrough | backend/src/rate_limit.js:40-65 | the same for the SQL limiter, wherever clean-ups fall |
| RateQuota.ProbesRenewGeneralWindows | backend/src/config.js:47-50 | with the default spans, four general requests of a client limited to two get through within 20 seconds, thanks to two health probes |
| RateLimit.LocalLimiter.Admit | backend/src/rate_limit.js:22-32 | map and answer are those of ConsumeLocal and Allowed |
| RateLimit.LocalLimiter.DeleteExpired | backend/src/rate_limit.js:29 | the loop deletes exactly the entries that are over by the caller's span |

## Left out

- NOTIFICATION_DISPATCH events: their branch never marks the event done, so neither settling once nor termination holds for them; the outbox here holds the three payment events.
- SQL isolation anomalies, deadlocks and advisory locks: every transaction is atomic, and so is every single statement. Under READ COMMITTED a family-wide revocation could miss a token inserted at the same time.
- Floating point: amounts are whole cents and rates exact fractions, so `roundMoney`, `Number.EPSILON` and NUMERIC(18,2) conversion are not modelled; the text of an amount is taken after trimming.
- HTTP parsing, JSON views, texts, audit rows, logs, metrics and alerts: they share no state with the properties above. `updated_at`, `processed_at` and `last_error` are not kept.
- fetch, S3, HMAC, PBKDF2, SHA-256 and random ids: provider answers are arbitrary, ids and token hashes are new numbers, the jitter is any 16-bit number; a password is a number and its stored hash current or outdated.
- The order of claims: the query returns the oldest claimable row that is not locked; the model returns any claimable row.
- Legacy webhook handling, the in-memory transaction rollback and the upload parser: not part of this model.
- UNDER_REVIEW: guards mention it as the code does, but no step enters it.
- Guards of the accept, apply and offer routes that only narrow who may ask (owner, deadline, own job): steps here are allowed to anybody, so the theorems cover more runs.
- "At most one accepted offer per job" over whole runs: an offer is inserted after its route has read the job without a lock, so it does not hold in general.
- Clock resolution of the rate limiter: times are whole milliseconds, so the clean-up deletes rows of at least ten minutes and one millisecond.
- Client addresses (`clientKey`, `stableKey`) of the rate limiter: a client is a number.
- Safety.OneKeyOnePaymentIff: refund calls are left out, since refund keys are unique per payment only and say nothing across payments.
- Worker.DriveToEnd: one worker at a time, which waits for a lease another one left; a release that an owner queues again starts with a fresh count of attempts.
- Sessions.LogoutEndsSessions: a login that has checked its password before the logout and inserts its refresh token afterwards counts as issued afterwards; its access token is covered.
- Simulation.RunsAgree: the provider confirms every call, the worker runs after every command, and ids and references are new.
