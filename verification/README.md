# A model of the marketplace's ledgers, limits and protocols

Fann is a marketplace where planners book artists. This project models the
parts of its back end that have to stay right over time and under
concurrency, and proves that they do:

- **Subscriptions and payments.** Payments are confirmed by webhooks or by an
  admin, aged out or polled by a reconciliation job, and minted into
  subscription rows; rows are activated by their owner, or expired and promoted
  by an hourly sweep. Results are about every run from an empty subscriptions
  table: paid periods never overlap, a stacked plan never starts early, rows
  and payments balance. A second model interleaves the statements of any number
  of decisions on one payment.
- **Timed counters.** The rate limiter's script and the one-time codes with
  their failure counter, over any sequence of calls.
- **Reviews** that stay hidden until both parties have written or seven days
  are over, and the ratings cached from them.
- **Bookings** decided by compare-and-swap on stale reads, **galleries** with a
  cap, an order and one primary photo, and **message requests** capped under a
  lock.

Each part has the same three layers. Pure functions say what an operation does
to the tables (`SubscriptionRules`, `PaymentRules`, `Throttler.Hit`,
`Reviews.Submit` and so on). Classes with the services' own methods change
fields step by step, and each method is proved to do exactly what its function
says. Lemmas about the functions, over every run or every interleaving, are the
main results. Beside them, further lemmas spell out from the rows and the
request alone when each operation succeeds, what it writes and what it answers.
Where a method requires an invariant of its tables, every run is proved to keep
it.

| file | what it holds |
|---|---|
| `Database`, `SubscriptionRules`, `PaymentRules` | tables, and what the operations do to them |
| `SubscriptionInvariant`, `LedgerInvariant` | what every operation keeps |
| `LedgerRuns`, `LedgerTheorems`, `Reminders`, `LedgerWitnesses` | runs, what holds in all of them, and two that show a rough edge |
| `Subscriptions`, `Payments`, `Scheduler`, `MaintenanceNotices` | the services and jobs |
| `ConfirmRace`, `MintRaces` | interleaved decisions on one payment; confirmations of several at once |
| `Stacking`, `PromptSweeps`, `StackTies` | where each period bought is put; when it starts if sweeps keep up; rows that cannot be told apart |
| `Settlement`, `Pricing`, `SubscriptionSteps` | what decides a payment, what is asked for it, and what the other steps do to each row |
| `Vat` | prices and tax |
| `Redis`, `Throttler`, `ThrottlerTraces`, `ThrottlerReplies`, `Otp`, `OtpTraces`, `OtpAnswers`, `OtpRaces` | expiring keys, rate limits, one-time codes |
| `Bookings`, `BookingRaces`, `BookingSteps`, `Reviews`, `ReviewRuns`, `ReviewSteps` | bookings and reviews |
| `Media`, `MediaRuns`, `GallerySteps`, `MediaRaces` | galleries |
| `Messaging`, `MessagingSteps`, `MessageRaces` | message requests |
| `SerialRaces` | the interleaved models against the whole calls |

`dafny verify dfyconfig.toml` checks the whole project.

## How the source is read

- There is one clock, in milliseconds, which never goes back; days have a fixed
  length. What randomness, providers, storage and callers supply is a parameter.
- Tables that are ordered by `created_at` are sequences in insertion order, so
  ties are broken by insertion. Rows of one payment do share their time;
  `StackTies` has the sweep take any of them.
- A Redis key is alive exactly while the time is before its deadline, and Redis
  refuses a non-positive expiry.
- The unique index `one_active_sub_per_user` guards every write of an active
  row; the unique index on provider and reference guards an intent's reference;
  the CHECK on quantities refuses a quantity of zero.
- Of the providers only the mock one verifies signatures; the manual, Whish and
  OMT ones refuse every webhook.

Where the code and its comments disagree, the model follows the code:

- "A fresh code starts from zero" (`src/redis/redis.service.ts:141-142`): sending
  a code leaves the failure counter as it is (`OtpTraces.FreshCodeSurvives`,
  `OtpTraces.EightGuesses`).
- Counting per number "caps the total guesses that number can ever receive,
  however they arrive" (`src/redis/redis.service.ts:138-139`): overlapping
  verifications of one code are all compared (`OtpRaces.OverlapBound`,
  `OtpRaces.NothingCapsOverlap`).
- "First photo becomes primary automatically"
  (`src/media/media.service.ts:180`): only if it is also the first item
  (`MediaRuns.FirstPhotoBecomesPrimary`, `MediaRuns.VideoFirstLeavesNoPrimary`).
- "Soft removal" of a review (`src/reviews/reviews.service.ts:171`): it lasts
  until the other party submits or a daily unlock finds the window over
  (`ReviewRuns.RemovalIsUndone`, `ReviewRuns.PairReshows`,
  `ReviewRuns.UnlockReshows`).
- "Amount and currency must match what we issued"
  (`src/payments/webhooks.service.ts:124`): less than a cent is let pass
  (`LedgerTheorems.PaidToTheCent`, `LedgerWitnesses.LessThanACentPasses`).
- "You already have a subscription running" on activation
  (`src/subscriptions/subscriptions.service.ts:399-402`): also raised by a row
  that has lapsed and waits for the sweep (`LedgerTheorems.ActivationSucceeds`,
  `LedgerWitnesses.LapsedRowRefusesCredit`).

## Model

| member | source | states |
|---|---|---|
| Database.Database.InsertSubscription | migrations/018_fann_subscriptions_support_telemetry.sql:172-173 | an INSERT is refused exactly when it would give a user a second active row; otherwise the row is added last and nothing else changes |
| Database.Database.UpdateSubscription | migrations/018_fann_subscriptions_support_telemetry.sql:172-173 | the same index on an UPDATE: refused exactly when a row turns active beside another active row of its user |
| SubscriptionRules.GetActiveSubscription | src/common/subscription.util.ts:56-77 | an active row of the user whose expiry is strictly ahead of the clock, and none only if there is none |
| SubscriptionRules.ActiveRow | src/subscriptions/subscriptions.service.ts:493-495 | the row found is an active row of that user, lapsed or not, and none only if there is none |
| SubscriptionRules.OldestQueued | src/subscriptions/subscriptions.service.ts:594-601 | the row found is the first-inserted queued row of that user, and none only if nothing is queued |
| SubscriptionRules.Threshold | src/subscriptions/subscriptions.service.ts:649-664 | the smallest of the plan's warning days that is at or above the days left; none only if the days left exceed them all |
| PaymentRules.FindPayment | src/payments/webhooks.service.ts:102-105 | the payment found carries that provider and reference; none only if no payment does |
| Subscriptions.SubscriptionsService.CreatePaymentIntent | src/subscriptions/subscriptions.service.ts:181-279 | the payment saved, priced from the plan table and taxed once; it stays, still pending, when the provider fails or its reference is taken |
| Subscriptions.SubscriptionsService.ReportTransfer | src/subscriptions/subscriptions.service.ts:317-335 | only the buyer's own undecided payment takes the transfer details; anything else is refused and nothing changes |
| Subscriptions.SubscriptionsService.ActivateCredit | src/subscriptions/subscriptions.service.ts:350-406 | a ready credit becomes an active row running from now; every refusal, the unique index included, leaves the table alone |
| Subscriptions.SubscriptionsService.MintForPayment | src/subscriptions/subscriptions.service.ts:423-475 | the rows a payment is turned into, none for a payment already minted or without a plan, and the invariant of the table kept |
| Subscriptions.SubscriptionsService.MintDatedPlan | src/subscriptions/subscriptions.service.ts:481-556 | the loop inserts exactly the periods back to back from the end of the chain, the first one running at once if there is no chain |
| Subscriptions.SubscriptionsService.InsertNext | src/subscriptions/subscriptions.service.ts:524-552 | one period goes in at the end of the chain, is never refused by the index, and the end it hands on is the end of the new chain |
| Subscriptions.SubscriptionsService.FindChainEnd | src/subscriptions/subscriptions.service.ts:493-519 | the walk over the queue ends where the active period and everything queued behind it run out; null only without a chain |
| Subscriptions.SubscriptionsService.ExpireAndPromote | src/subscriptions/subscriptions.service.ts:570-621 | the swept table; the lists returned hold exactly the rows that expired and the rows that were promoted, each once |
| Subscriptions.SubscriptionsService.ExpireLapsed | src/subscriptions/subscriptions.service.ts:574-578 | exactly the active rows at or past their expiry are expired and returned |
| Subscriptions.SubscriptionsService.PromoteWaiting | src/subscriptions/subscriptions.service.ts:583-618 | for everybody queued with nothing active, exactly their oldest row starts, whatever the order of users |
| Subscriptions.SubscriptionsService.FindDueRenewalReminders | src/subscriptions/subscriptions.service.ts:632-695 | exactly the running rows inside a warning window whose (subscription, days) pair has no notification yet |
| Payments.ConfirmAndMint | src/payments/webhooks.service.ts:156-168 | payment row and subscription rows change together or not at all |
| Payments.WebhooksService.ProcessDelivery | src/payments/webhooks.service.ts:51-183 | the outcome, the recorded event and both tables after any delivery; the ledger invariant is kept |
| Payments.WebhooksService.SettlePayment | src/payments/webhooks.service.ts:118-183 | replay, then amount and currency, then the reported status, then confirm and mint, in that order |
| Payments.AdminService.ReviewPayment | src/admin/admin.service.ts:446-479 | only an undecided payment is decided, a rejection needs a reason, a confirmation mints; the ledger invariant is kept |
| Scheduler.SchedulerService.DoPaymentReconciliation | src/scheduler/scheduler.service.ts:393-485 | every payment ages out, is rejected, or is left alone as its provider, age, reference and answer say; no poll confirms |
| Scheduler.SchedulerService.ExpireStale | src/scheduler/scheduler.service.ts:395-428 | hosted intents past their expiry and manual ones unreported for thirty days expire, and no others |
| Scheduler.SchedulerService.PollProvider | src/scheduler/scheduler.service.ts:442-480 | one provider's hanging payments take its failed or expired answers, and nothing else changes |
| Scheduler.SchedulerService.DoSubscriptionMaintenance | src/scheduler/scheduler.service.ts:271-293 | the swept table, and every user told of their one end and their one start exactly once |
| Scheduler.SchedulerService.DoRenewalReminders | src/scheduler/scheduler.service.ts:310-355 | exactly the due reminders are added to what has been sent |
| LedgerInvariant.NextRowKeeps | src/subscriptions/subscriptions.service.ts:523-552 | a period inserted at the end of the chain keeps every invariant of the table and moves the end of the chain by its own length |
| LedgerInvariant.DatedRowsKeep | src/subscriptions/subscriptions.service.ts:523-553 | any number of periods minted in a row keep the invariant and leave the chain ending after the last of them |
| LedgerInvariant.MintKeeps | src/subscriptions/subscriptions.service.ts:423-475 | minting keeps one active row per user, disjoint periods and the projected starts |
| LedgerInvariant.ConfirmKeeps | src/payments/webhooks.service.ts:157-168 | confirm-and-mint keeps rows and payments in balance |
| SubscriptionInvariant.ActivateKeeps | src/subscriptions/subscriptions.service.ts:383-392 | starting a credit keeps the table's invariant, projected starts of the queue included |
| SubscriptionInvariant.ExpiryKeeps | src/subscriptions/subscriptions.service.ts:574-578 | expiring lapsed rows keeps the invariant and leaves nothing lapsed |
| SubscriptionInvariant.PromotionKeeps | src/subscriptions/subscriptions.service.ts:592-618 | promotion keeps the invariant for every set of users served, so also half-way through the loop |
| LedgerRuns.RunKeeps | src/subscriptions/subscriptions.service.ts:423-621 | every run of purchases, reports, webhooks, reviews, reconciliations, activations, sweeps and reminders keeps all of it |
| LedgerTheorems.PaidPeriodsNeverOverlap | src/subscriptions/subscriptions.service.ts:350-621 | over every run: at most one active row per user, every period exactly its plan's length, and no instant in two periods of one user |
| LedgerTheorems.AccessIsPaidTime | src/common/subscription.util.ts:56-85 | access is granted exactly inside a paid period, however late the sweep |
| LedgerTheorems.RunFollows | src/subscriptions/subscriptions.service.ts:383-610 | over every run a row only waits, runs once and expires, a begun period never moves, a payment never changes buyer, plan, quantity or price |
| LedgerTheorems.StackedPlanNeverStartsEarly | src/subscriptions/subscriptions.service.ts:504-613 | a queued row is never started before the start projected at purchase, whatever happens in between |
| StackTies.KthStartIsNeverEarly | src/subscriptions/subscriptions.service.ts:592-613 | with rows of one payment taken in any order, its k-th row to start does so no earlier than its k-th projected start, over every run |
| Stacking.CreditsAreBanked | src/subscriptions/subscriptions.service.ts:452-465 | a confirmed purchase of day passes adds that many ready credits of the buyer, without any date |
| Stacking.PeriodsAreBackToBack | src/subscriptions/subscriptions.service.ts:523-552 | of the periods a confirmed dated purchase adds, each after the first is queued and its projected start is that of the one before plus the length of the plan |
| Stacking.FirstPeriodRuns | src/subscriptions/subscriptions.service.ts:524-538 | with nothing active and nothing queued the first period added runs from the clock for the length of the plan |
| Stacking.FirstPeriodFollowsActive | src/subscriptions/subscriptions.service.ts:511-519 | with an active row and nothing queued the first period added is projected to start exactly at that row's expiry |
| Stacking.FirstPeriodFollowsAll | src/subscriptions/subscriptions.service.ts:493-519 | with an active row the first period added is projected to start at its expiry plus the days, months and years queued, counted row by row, whatever starts were projected for them |
| Stacking.FirstPeriodFollowsQueue | src/subscriptions/subscriptions.service.ts:511-547 | behind a queue whose projections are still exact it starts where the last queued row's own projection and length end |
| Stacking.MintIsAnswered | src/subscriptions/subscriptions.service.ts:423-475 | minting asked for directly: no such payment, nothing for one without a plan, nothing twice, no such plan, or one row for each unit bought, of that buyer, plan and payment |
| Stacking.QueuesAreLed | src/subscriptions/subscriptions.service.ts:583-611 | over every run a user with a queue has an active row, so the branch for a queue without one is not reached |
| PromptSweeps.PromptChainsAreExact | src/subscriptions/subscriptions.service.ts:504-613 | over every run in which sweeps fall exactly on a user's expiries, each queued row is projected to start exactly where the row before it ends |
| PromptSweeps.StartsAsProjected | src/subscriptions/subscriptions.service.ts:504-613 | in such a run a row once queued starts exactly at its projected start, credits started in between included |
| LedgerTheorems.LedgerIsConserved | src/subscriptions/subscriptions.service.ts:436-475 | rows exist for a payment iff it is confirmed and has a plan, then as many as bought, of that buyer and plan; all rows sum to all quantities owed |
| LedgerTheorems.ConfirmedAbsorbs | src/payments/webhooks.service.ts:118-122 | from a confirmation on, no run changes the payment or the number of its rows |
| LedgerTheorems.OnlyTheseConfirm | src/payments/webhooks.service.ts:80-168 | an unconfirmed payment becomes confirmed iff it can be minted and either an admin confirms it while undecided, or a signed webhook names it, reports it paid and agrees in currency and to within a cent; no other step, no poll among them, confirms |
| LedgerTheorems.WebhookConfirms | src/payments/webhooks.service.ts:118-168 | a delivery confirms an unconfirmed payment, be it rejected, expired or disputed, iff it is signed, names it and reports it paid as asked; then exactly the quantity is minted |
| LedgerTheorems.PaidToTheCent | src/payments/webhooks.service.ts:124-127 | what is taken for the amount asked is less than a cent away from it, and equal to it if in whole cents |
| LedgerTheorems.AdminConfirms | src/admin/admin.service.ts:453-479 | an admin's confirmation takes effect iff the payment is undecided and its plan still exists |
| Settlement.DeliveryDecides | src/payments/webhooks.service.ts:111-168 | what any delivery makes of each unconfirmed payment: nothing unless signed and naming it, disputed if the amount is absent or a cent or more off or the currency another, else confirmed, rejected or expired as reported, and no other column changes |
| Settlement.OnlyTheseDispute | src/payments/webhooks.service.ts:124-146 | over every step: a payment becomes disputed iff a signed webhook names it whose amount is absent or a cent or more off, or whose currency differs |
| Settlement.OnlyTheseReject | src/payments/webhooks.service.ts:148-155 | over every step: a payment becomes rejected iff a webhook for what was asked reports failed, an admin rejects it undecided and with a reason, or a poll half an hour on answers failed |
| Settlement.OnlyTheseExpire | src/payments/webhooks.service.ts:148-155 | over every step: a payment becomes expired iff a webhook for what was asked reports neither paid nor failed, or the reconciliation ages it out or is answered that it timed out |
| Settlement.DeliveryIsRecorded | src/payments/webhooks.service.ts:56-122 | every delivery adds one event with its provider, the signature verdict, the reference read and the payment it names |
| Settlement.UnnamedOutcome | src/payments/webhooks.service.ts:71-111 | a delivery that names no payment changes no payment and is recorded as of an unknown provider, badly signed, unparseable or without a payment |
| Settlement.NamedOutcome | src/payments/webhooks.service.ts:115-182 | the outcome recorded for one that names a payment: a replay first, then the amount and currency, then the reported status; none if minting was refused |
| Settlement.DeliveryIsAnswered | src/payments/webhooks.service.ts:65-69 | the provider is answered with the recorded outcome, and with an error iff none is recorded |
| Settlement.AdminDecides | src/admin/admin.service.ts:446-479 | an admin's decision changes only the payment reviewed and only while it is undecided: rejected with its reason, or confirmed if it can be minted |
| Settlement.AdminIsAnswered | src/admin/admin.service.ts:446-479 | the answer to an admin: no such payment, already decided, a reason wanted, no such plan, or the number of rows minted |
| Settlement.ReportChangesTheTransfer | src/subscriptions/subscriptions.service.ts:317-335 | a report changes two columns of the buyer's own undecided payment and nothing else, and is answered so |
| Settlement.ReconciliationDecides | src/scheduler/scheduler.service.ts:393-485 | what a reconciliation makes of each payment: expired if aged out, rejected or expired if asked about and answered so, else unchanged |
| Settlement.LiveIntentsAreSpared | src/scheduler/scheduler.service.ts:395-428 | a checkout at or before its expiry, and a manual intent reported or at most thirty days old, is not aged out |
| Pricing.PurchaseIsPriced | src/subscriptions/subscriptions.service.ts:181-216 | a purchase of a plan on sale adds one payment in the buyer's name at list price times quantity, plus tax at the configured rate to the nearest cent; any other is refused and adds none |
| Pricing.PurchaseAwaitsItsProvider | src/subscriptions/subscriptions.service.ts:234-254 | it awaits its provider iff the provider answered with a reference none of its payments has; otherwise it stays pending without one |
| Pricing.EveryRowIsPaidFor | src/subscriptions/subscriptions.service.ts:189-197 | over every run a payment bought asks for the list price of its quantity and the tax on it, and once confirmed the rows minted for it are as many as were priced |
| LedgerWitnesses.LessThanACentPasses | src/payments/webhooks.service.ts:124-127 | a run in which 99.995 is paid for 100 and the payment is confirmed |
| LedgerWitnesses.LapsedRowRefusesCredit | src/subscriptions/subscriptions.service.ts:398-404 | a run in which a ready credit is refused by the index with nothing running, and a sweep is all it takes |
| LedgerTheorems.SweepIsComplete | src/subscriptions/subscriptions.service.ts:570-621 | after a sweep nothing lapsed is active, every queue has an active row, and access is exactly what it was plus everybody queued |
| LedgerTheorems.SecondSweepDoesNothing | src/subscriptions/subscriptions.service.ts:570-621 | a second sweep at the same time changes nothing |
| LedgerTheorems.SweepPromotesOldest | src/subscriptions/subscriptions.service.ts:583-611 | a queued row starts iff it is its user's oldest and the user has no access |
| LedgerTheorems.ActivationSucceeds | src/subscriptions/subscriptions.service.ts:364-404 | a ready credit starts iff its user has no active row, lapsed or not; it is the index that refuses iff there is such a row and no access |
| LedgerTheorems.ActivationAfterSweep | src/subscriptions/subscriptions.service.ts:364-404 | right after a sweep a credit starts iff its user had neither access nor a queue |
| SubscriptionSteps.ActivationStartsNow | src/subscriptions/subscriptions.service.ts:350-406 | a credit of the user's own that is ready starts now for its plan's days iff no row of the user is active, and no other row changes |
| SubscriptionSteps.RefusalsAre | src/subscriptions/subscriptions.service.ts:364-404 | which refusal a credit meets, the one for an active row telling a running row from one that has lapsed |
| SubscriptionSteps.SweepDoes | src/subscriptions/subscriptions.service.ts:570-621 | what a sweep makes of each row: expired at or past its expiry, started now for its plan's days if its user's oldest in the queue and the user has no access, else unchanged |
| SubscriptionSteps.CountForIs | src/subscriptions/subscriptions.service.ts:436-438 | the count of a payment's rows is the number of rows that name it |
| ConfirmRace.MintedExactlyOnce | src/subscriptions/subscriptions.service.ts:436-444 | any interleaving of any number of webhook and admin confirmations, with rollbacks: committed rows are none, or exactly the quantity once one has committed |
| ConfirmRace.OneAtATime | src/admin/admin.service.ts:465-479 | the row lock lets one confirmation at a time into its transaction |
| MintRaces.EachMintedOnce | src/subscriptions/subscriptions.service.ts:493-552 | any interleaving of confirmations of one user's dated payments, lapses and promotions: each payment has none or all of its rows, and all rows are the active one, the queued and the expired |
| MintRaces.IndexHolds | src/subscriptions/subscriptions.service.ts:523-534 | an uncommitted active row is the only one, and none is committed beside it |
| MintRaces.LoserQueues | src/subscriptions/subscriptions.service.ts:493-552 | of two first purchases that both read no active row, the second is rolled back whole, and queues when tried again |
| ConfirmRace.ConfirmedSurvives | src/payments/webhooks.service.ts:118-168 | over every interleaving of confirmations, rejections, disputes, polls, ageing and the buyer's own update: a confirmed status lasts through every continuation iff nobody stands between a read made before it and a write of another status |
| ConfirmRace.StaleRejectionOverwrites | src/admin/admin.service.ts:447-471 | a run in which an admin's rejection reads before a webhook's confirmation commits and writes after it; the minted rows stay |
| SerialRaces.ConfirmerMints | src/payments/webhooks.service.ts:156-168 | a webhook's or admin's confirmation left to itself ends confirmed, with all its rows, and unlocked |
| SerialRaces.DeciderWrites | src/payments/webhooks.service.ts:124-155 | what each other decider left to itself writes, over which statuses; it mints nothing |
| SerialRaces.MinterMints | src/subscriptions/subscriptions.service.ts:493-552 | one order of a user left to itself adds all its rows: queued behind a chain, else the first active |
| Reminders.RemindersNeverRepeat | src/subscriptions/subscriptions.service.ts:661-694 | over every run no (subscription, days) pair is sent twice, and a subscription's thresholds strictly decrease |
| Reminders.SentExactlyInWindow | src/subscriptions/subscriptions.service.ts:652-694 | a reminder has been sent iff some reminder run was made while its row was in that window |
| SubscriptionSteps.DaysLeft | src/subscriptions/subscriptions.service.ts:705-708 | the days left are d iff the time left is more than d - 1 days and at most d |
| SubscriptionSteps.WarningIs | src/subscriptions/subscriptions.service.ts:648-664 | a running year is warned of in its last 30, 7 and 1 days and a running month in its last 3, the nearest counting; a day pass never |
| MaintenanceNotices.BuildMaintenanceNotifications | src/scheduler/scheduler.service.ts:101-151 | the loops over a Map with deletion produce the notices specified, in order |
| MaintenanceNotices.EveryEventToldOnce | src/scheduler/scheduler.service.ts:86-148 | every end is told once and in order; every start is told once iff its user has at most one |
| MaintenanceNotices.NoticeCount | src/scheduler/scheduler.service.ts:109-148 | as many notices as ends and starts, less one for each user with both |
| MaintenanceNotices.NoticesSay | src/scheduler/scheduler.service.ts:101-148 | each notice carries the row, user, plans and dates of an event that happened, and a start told alone is of a user with no end |
| Scheduler.OneEndEach | src/scheduler/scheduler.service.ts:105 | a sweep ends at most one row of a user, which is what the Map relies on |
| Scheduler.OneStartEach | src/scheduler/scheduler.service.ts:105-106 | a sweep starts at most one row of a user, which is what the Map relies on |
| Vat.ResolveVatRate | src/common/vat.ts:42-48 | a usable setting is the rate; no other setting charges any tax, but for an absent or blank one, which charges the default |
| Vat.Quote | src/subscriptions/subscriptions.service.ts:189-197 | a plan priced in whole cents, for any quantity and rate, is charged in whole cents and net plus tax is the gross |
| Vat.TotalIsExact | src/common/vat.ts:59-68 | tax and gross are whole cents; the three figures add up iff the net price is a whole number of cents |
| Vat.WithinHalfCent | src/common/vat.ts:60 | the tax charged is within half a cent of the tax due |
| Vat.TaxIsMonotone | src/common/vat.ts:59-68 | a dearer price or a higher rate is never taxed less |
| Vat.LineVersusUnits | src/subscriptions/subscriptions.service.ts:191-192 | taxing n units as one line differs from n separate taxings by at most (n + 1) / 2 cents |
| Vat.LineIsUnits | src/subscriptions/subscriptions.service.ts:191-192 | one line is taxed like its units iff their rounding errors together lie in the half-open half-cent interval |
| Vat.UnitsCanDrift | src/common/vat.ts:60 | three units at 5.05 and 11% are taxed a cent more than one line of them |
| Vat.AmountCheckIsExact | src/payments/webhooks.service.ts:124-127 | between whole-cent amounts the one-cent tolerance is equality |
| Throttler.RedisThrottlerStorage.Increment | src/redis/redis-throttler.storage.ts:110-147 | one call of the script on the two keys: reply and both keys, with every other key untouched |
| ThrottlerTraces.WindowBound | src/redis/redis-throttler.storage.ts:125-144 | from the call that opens a window until it closes, at most `limit` calls are admitted |
| ThrottlerTraces.SpanBound | src/redis/redis-throttler.storage.ts:110-147 | over every sequence of calls, any half-open span of ttl ms admits at most 2 * limit - 1 |
| ThrottlerTraces.SpanBoundIsTight | src/redis/redis-throttler.storage.ts:110-147 | for every limit of at least 1 and ttl of at least 2 ms some sequence reaches that bound |
| ThrottlerTraces.ShortestWindow | src/redis/redis-throttler.storage.ts:110-147 | with a ttl of 1 ms it is not reached: a span admits at most `limit` |
| ThrottlerTraces.CounterCeiling | src/redis/redis-throttler.storage.ts:106-123 | the counter stays at or below limit + 1 over every sequence of calls iff a block lasts at least as long as a window |
| ThrottlerTraces.CounterOverrun | src/redis/redis-throttler.storage.ts:140-144 | with a shorter block the same window is counted to limit + 2 |
| ThrottlerTraces.FirstCallAfterBlock | src/redis/redis-throttler.storage.ts:117-128 | a call during a block changes neither key; the first one after it is admitted with count 1 |
| ThrottlerTraces.RepairNeverNeeded | src/redis/redis-throttler.storage.ts:130-136 | no sequence of calls reaches the branch for a counter without a TTL |
| ThrottlerReplies.BlockedCall | src/redis/redis-throttler.storage.ts:117-123 | a call during a block changes neither key and is answered with the live count and the seconds that window and block still last, rounded up |
| ThrottlerReplies.CountedCall | src/redis/redis-throttler.storage.ts:125-147 | any other call is counted in the open window or one that opens now; it is blocked iff the count passes the limit, and then a block of the given length begins |
| ThrottlerReplies.EveryCallIsAnswered | src/redis/redis-throttler.storage.ts:110-147 | after any calls, the next is refused iff a block is alive or the live window has counted the limit |
| ThrottlerTraces.CallersShareNoKey | src/redis/redis-throttler.storage.ts:41-42 | distinct callers, and counters and blocks, never share a key, for limiter names without a colon and other than "blocked" |
| ThrottlerTraces.BlockedCollides | src/redis/redis-throttler.storage.ts:41-42 | a limiter named "blocked" counts in the key that blocks another |
| ThrottlerTraces.LimitersCountApart | src/redis/redis-throttler.storage.ts:41 | two limiters never count in one key iff neither name with its colon begins with the other |
| ThrottlerTraces.CountsAndBlocksApart | src/redis/redis-throttler.storage.ts:41-42 | no counter of one limiter is a block of another iff neither of the name and "blocked:" with the other name, each with its colon, begins with the other |
| Otp.RedisService.RecordOtpFailure | src/redis/redis.service.ts:149-156 | the count returned and stored; the TTL is set on the first failure only |
| Otp.AuthService.SendOtp | src/auth/auth.service.ts:414-430 | a new code for ten minutes, the failure counter and every other number untouched |
| Otp.AuthService.VerifyOtp | src/auth/auth.service.ts:481-513 | outcome and both keys of the number, the account written only on success, every other number untouched |
| OtpTraces.CounterRests | src/auth/auth.service.ts:490-502 | over every run a failure counter rests between 1 and 4 and expires |
| OtpTraces.GuessBound | src/auth/auth.service.ts:490-502 | any code meets at most 8 wrong guesses, and at most 5 when no failure is counted as it is issued |
| OtpTraces.EightGuesses | src/auth/auth.service.ts:490-502 | a run in which one code meets 8 |
| OtpTraces.FreshCodeSurvives | src/redis/redis.service.ts:141-156 | guessed at as it is issued, a code survives n wrong guesses iff n and the failures already counted make less than five: it does not start from zero |
| OtpTraces.VerifiedCodeWasSent | src/auth/auth.service.ts:486-510 | what verifies is the last code sent to that number, less than ten minutes ago, and not used before |
| OtpAnswers.RightCodeVerifies | src/auth/auth.service.ts:486-512 | over every run: a guess verifies iff it is not empty, was the last code sent, less than ten minutes ago, has not been guessed since, and no verification since was one too many |
| OtpAnswers.AnswersAre | src/auth/auth.service.ts:486-512 | every answer told from the history alone: no code iff none is living; the living code verifies; any other guess is one too many iff four wrong ones are counted in the current ten minutes, else incorrect |
| OtpAnswers.FreshCodeVerifies | src/redis/redis.service.ts:141-156 | after n wrong guesses as it is issued the right code verifies iff n and the failures already counted make less than five |
| OtpRaces.OverlapBound | src/auth/auth.service.ts:486-502 | over every interleaving of the commands of verifications, with at most m in flight at any time, a code issued with no failure counted meets at most 4 + m wrong guesses in its life |
| OtpRaces.LivingCodeBound | src/auth/auth.service.ts:486-502 | while a code lives it has met at most four wrong guesses more than are being dealt with |
| OtpRaces.NothingCapsOverlap | src/redis/redis.service.ts:138-139 | any number of verifications that all read before one counts are all compared: no constant caps them |
| SerialRaces.VerifyRefines | src/auth/auth.service.ts:486-512 | the commands of one verification left to itself come to the whole call: code, counter and wrong guesses met |
| Bookings.BookingsService.Handle | src/bookings/bookings.service.ts:103-201 | a whole request with nothing in between: it succeeds iff the row exists, the user may ask and its status allows it, with one row and one notice written; otherwise nothing changes, and never for a concurrent change |
| Bookings.BookingsService.Respond | src/bookings/bookings.service.ts:106-158 | with any stale row: one swap and one notice if the status in the table is still pending, otherwise nothing changes |
| Bookings.BookingsService.CancelBooking | src/bookings/bookings.service.ts:167-200 | with any stale row: one swap, the canceller recorded and the other party told, or nothing |
| Bookings.BookingsService.MarkCompletedBatch | src/bookings/bookings.service.ts:226-238 | exactly the accepted bookings up to yesterday are completed and returned |
| Bookings.BookingsService.DoDailyReviewTrigger | src/scheduler/scheduler.service.ts:562-582 | each newly completed booking is stamped once, and a stamp never moves |
| BookingRaces.StatusesFollowTheGraph | src/bookings/bookings.service.ts:103-238 | any interleaving of stale requests and sweeps: pending, one decision, and after an acceptance at most one more change |
| BookingRaces.TerminalAbsorbs | src/bookings/bookings.service.ts:124-188 | a declined, cancelled or completed booking never changes again |
| BookingRaces.NoticesAreTrue | src/bookings/bookings.service.ts:134-155 | each notice tells of a change its sender really made, no change is told twice, accepted and declined are never both told |
| BookingRaces.NoChangeGoesUntold | src/bookings/bookings.service.ts:134-198 | once every winner has sent its notice, every change made by a request has been told |
| BookingSteps.ScreenIs | src/bookings/bookings.service.ts:103-175 | a request passes its first look iff its user may make it of the row as read, and which refusal otherwise |
| BookingSteps.SwapIs | src/bookings/bookings.service.ts:124-188 | the conditional update takes iff the row as it is allows the request, and changes the status and, for a cancellation, its author, and no more |
| BookingSteps.TriggerCompletes | src/scheduler/scheduler.service.ts:562-582 | every accepted booking dated yesterday or before, and no other, is completed, and stamped unless it was |
| BookingSteps.MadeByTheRightParty | src/bookings/bookings.service.ts:103-238 | over every interleaving: decisions are the artist's, a cancellation is by the participant the row names, a completion is a sweep's after the day |
| BookingSteps.NoticesGoToTheOther | src/bookings/bookings.service.ts:134-198 | over every interleaving: each notice is about this booking, says what its sender did and goes to the other party |
| BookingSteps.UndisturbedWins | src/bookings/bookings.service.ts:103-201 | a request that may be made and is left to itself is written, recorded and told |
| Reviews.ReviewsService.SubmitReview | src/reviews/reviews.service.ts:24-79 | the review added hidden, or which refusal; both shown and both ratings refreshed when it completes the pair |
| Reviews.ReviewsService.TryUnlockPair | src/reviews/reviews.service.ts:219-235 | with exactly two reviews of the booking both are shown and their ratings refreshed; otherwise nothing happens |
| Reviews.ReviewsService.UnlockExpiredReviews | src/reviews/reviews.service.ts:135-168 | everything about the expired bookings is shown, and the ratings of those reviewed there follow |
| Reviews.ReviewsService.AdminRemove | src/reviews/reviews.service.ts:173-183 | the review is hidden and its subject's rating refreshed |
| Reviews.ReviewsService.RecalculateAggregate | src/reviews/reviews.service.ts:240-257 | the profile gets the count and rounded mean of the user's visible reviews, and null without any |
| ReviewRuns.RunKeeps | src/reviews/reviews.service.ts:24-257 | every run keeps blindness, one review per party, and every rating true, untouched users included |
| ReviewRuns.VisibleOnlyWhenSettled | src/reviews/reviews.service.ts:135-155 | a visible review means both parties wrote, or seven days have passed since they were asked |
| ReviewRuns.NobodyWritesSecondSighted | src/reviews/reviews.service.ts:38-73 | with a review of the booking in view, a participant who has not written can submit iff it is the very instant the window closes |
| ReviewRuns.SecondSightedAtTheInstant | src/reviews/reviews.service.ts:38-45 | a run that reaches that instant |
| ReviewRuns.PairIsShown | src/reviews/reviews.service.ts:219-235 | a submission brings all of its booking's reviews into view iff the other party had written |
| ReviewRuns.RatingsAgree | src/reviews/reviews.service.ts:240-257 | over every run a profile's count is that of its visible reviews and its average is within half a hundredth of their mean, null iff there are none |
| ReviewSteps.SubmissionSucceeds | src/reviews/reviews.service.ts:24-62 | a review is taken iff the booking is completed, its writer a participant who has not written, and no more than seven days have passed since they were asked |
| ReviewSteps.SubmissionAdds | src/reviews/reviews.service.ts:64-79 | it adds one review by its writer about the other party; both come into view iff the other had written, and no other review changes |
| ReviewSteps.UnlockShows | src/reviews/reviews.service.ts:135-168 | the daily unlock shows a review iff its booking was asked about seven days ago or more |
| ReviewSteps.RemovalHides | src/reviews/reviews.service.ts:173-183 | a removal hides that review and touches no other |
| ReviewSteps.ProfileAverages | src/reviews/reviews.service.ts:240-257 | over every run a profile counts the visible reviews of one to five stars and averages the stars to the nearest hundredth, halves up |
| ReviewRuns.RemovalIsUndone | src/reviews/reviews.service.ts:135-183 | over every run after it, an admin's removal, not made again, is undone iff some daily unlock found the booking's window over or the other party submitted |
| ReviewRuns.PairReshows | src/reviews/reviews.service.ts:226-228 | a run in which the other party's submission shows a removed review, its window open |
| ReviewRuns.UnlockReshows | src/reviews/reviews.service.ts:152-155 | a run in which a later unlock shows a review removed while its window was open |
| Media.MediaService.Confirm | src/media/media.service.ts:110-205 | the new row, or which refusal; the thumbnail follows if the row is primary |
| Media.MediaService.SetPrimary | src/media/media.service.ts:246-262 | the photo is its owner's one primary and the thumbnail, or which refusal |
| Media.MediaService.Remove | src/media/media.service.ts:267-310 | the row goes whatever storage says, and a primary's place and the thumbnail pass to the first photo left, or to nothing |
| Media.MediaService.SyncThumbnail | src/media/media.service.ts:324-336 | only the user's own profile changes, if there is one |
| MediaRuns.GalleriesAreTidy | src/media/media.service.ts:159-193 | over every run: at most 20 items, no two in one position, at most one primary and it is a photo |
| MediaRuns.ThumbnailIsThePrimary | src/media/media.service.ts:196-201 | over every run a profile shows a URL iff its user's primary photo has it |
| MediaRuns.NewItemComesLast | src/media/media.service.ts:171-193 | a confirmed upload lands after everything of its owner's, and no existing row changes |
| MediaRuns.FirstPhotoBecomesPrimary | src/media/media.service.ts:180-181 | after a photo is confirmed its owner has a primary iff there was one or the gallery was empty |
| MediaRuns.VideoFirstLeavesNoPrimary | src/media/media.service.ts:180-181 | a video and then a photo: a first photo that is not primary |
| MediaRuns.PrimaryOutlivesRemoval | src/media/media.service.ts:294-307 | where there was a primary, a removal leaves one iff a photo is left |
| MediaRuns.RemovalPromotesTheFirst | src/media/media.service.ts:283-307 | exactly one row goes, the first photo left takes over iff that row was primary, and nothing else changes |
| MediaRuns.RemovalSparesOthers | src/media/media.service.ts:113-127 | a removal deletes no object under another key, so none of another user's |
| GallerySteps.ConfirmSucceeds | src/media/media.service.ts:110-193 | an upload is confirmed iff it is small enough, under the user's prefix, in storage with its size, a video of at most a minute, storage answers, and fewer than twenty items are there |
| GallerySteps.ConfirmRefusals | src/media/media.service.ts:110-170 | which refusal an upload meets, in the order of the checks |
| GallerySteps.ConfirmAdds | src/media/media.service.ts:136-201 | the row added, primary iff a photo in an empty gallery, and shown on the profile iff primary; nothing else changes |
| GallerySteps.PlacesAreConsecutive | src/media/media.service.ts:171-178 | its position is 0 in an empty gallery and otherwise one past the last |
| GallerySteps.PrimaryMoves | src/media/media.service.ts:246-262 | a photo of the user's own becomes the one primary and the thumbnail; other users' rows and profiles, and every other column, stay |
| GallerySteps.RemovalTakesItsObject | src/media/media.service.ts:267-292 | an item of the user's own is removed whatever storage says; its object goes iff storage answers, and no other |
| MediaRaces.GalleriesStayTidy | src/media/media.service.ts:139-193 | any interleaving of the statements of confirmations, with rows deleted meanwhile: at most 20 items and no two in one position |
| SerialRaces.ConfirmRefines | src/media/media.service.ts:139-193 | the statements of one confirmation left to itself come to the whole call: same rows, lock given back |
| Messaging.MessagingService.StartAsPlanner | src/messaging/messaging.service.ts:148-176 | an accepted thread, the existing one, or which refusal |
| Messaging.MessagingService.StartAsArtist | src/messaging/messaging.service.ts:178-268 | a pending thread and its notice, the existing thread, or which refusal |
| Messaging.MessagingService.RespondToRequest | src/messaging/messaging.service.ts:273-307 | only the planner of a pending thread answers it, and a yes is told to the artist |
| Messaging.AnswersAreFinal | src/messaging/messaging.service.ts:194-201 | no run of whole calls changes an answered thread, and a refused artist is refused again |
| Messaging.OpenedByThePlanner | src/messaging/messaging.service.ts:129-133 | over every run a thread is open only if its planner started it or said yes |
| MessagingSteps.PlannerStart | src/messaging/messaging.service.ts:148-176 | a planner reaches any active artist but themselves, by the thread they have or an open one of their own, and which refusal otherwise |
| MessagingSteps.ArtistStart | src/messaging/messaging.service.ts:178-250 | an artist reaches an active planner iff their thread is not declined or, without one, fewer than ten requests wait; and which refusal otherwise |
| MessagingSteps.RequestWaits | src/messaging/messaging.service.ts:238-266 | a request taken is pending and its planner told; along an existing thread nothing changes |
| MessagingSteps.AnswerSettles | src/messaging/messaging.service.ts:273-307 | a thread is answered iff by its planner while it waits; the artist is told of a yes only; and which refusal otherwise |
| MessagingSteps.RequestsAreCapped | src/messaging/messaging.service.ts:129-250 | over every run of whole calls: a thread was started by one of its two, a planner's own is open, and no artist has more than ten waiting |
| MessageRaces.NeverMoreThanTenPending | src/messaging/messaging.service.ts:223-250 | any interleaving of requests, openings and answers: no artist has more than ten pending requests |
| MessageRaces.OneAtATime | src/messaging/messaging.service.ts:224-226 | two transactions of one artist are never open at once |
| MessageRaces.NeverPendingAgain | src/messaging/messaging.service.ts:287-290 | no step removes a thread, changes who started it, or makes it pending again |
| MessageRaces.AnswerSurvives | src/messaging/messaging.service.ts:283-290 | an answered thread stays as it is through every continuation iff no opposite answer that read it as pending is still to be written |
| MessageRaces.AnswersCanOverwrite | src/messaging/messaging.service.ts:283-290 | a run of two answers that both read pending: the second write wins over an acceptance already written |
| SerialRaces.ArtistRefines | src/messaging/messaging.service.ts:213-262 | the statements of one request left to itself come to the whole call, and the lock is given back |
| SerialRaces.OpenerRefines | src/messaging/messaging.service.ts:156-176 | so do those of a planner's opening with no request for the pair in flight |
| SerialRaces.ResponderRefines | src/messaging/messaging.service.ts:273-295 | and those of an answer |

## Left out

- The limiter's answer while Redis is down, which admits every call: the bounds are about calls that reach the script.
- OtpTraces.GuessBound: sends and verifications are atomic steps; OtpRaces.OverlapBound has overlapping verifications of one code issued with no failure counted, and no second code.
- LedgerTheorems.LedgerIsConserved: each operation is one atomic step. When a status write that races a confirmation overwrites it is what ConfirmRace.ConfirmedSurvives says; the rows are covered by ConfirmRace.MintedExactlyOnce in any interleaving.
- LedgerTheorems.SweepIsComplete: database writes succeed; a promotion that fails in the sweep's try/catch is left for the next sweep.
- Subscriptions.SubscriptionsService.ActivateCredit: the branch where another request has spent the credit between read and write needs two requests at once and cannot be reached in one atomic call.
- MediaRuns.GalleriesAreTidy: confirm, set-primary and remove are atomic steps. MediaRaces.GalleriesStayTidy interleaves confirmations and deletions, for the cap and the positions; races over the primary flag and the thumbnail are not covered.
- MintRaces.EachMintedOnce: payments of dated plans only; a day pass started meanwhile is not a step.
- StackTies.KthStartIsNeverEarly: one user; payments themselves are told apart by their time.
- ReviewRuns.RunKeeps: submissions, unlocks and removals are atomic steps.
- Media.MediaService.Remove: requires distinct positions, which every run keeps; between photos in one position the database could pick either.
- Reviews.ReviewsService.UnlockExpiredReviews: does not return the number of reviews unlocked, which is only logged.
- Vat.ResolveVatRate: parsing the setting's text; blank, unreadable and given rates arrive told apart, and amounts are exact reals where the source has doubles.
- Settlement.DeliveryDecides: letters of a currency are compared as ASCII; every payment has a currency.
- Creating bookings, with its checks on availability and access, the notes on a cancellation, and the scores and text of a review beside its overall score.
- Presigned uploads and what storage does beyond keeping, finding and deleting objects: an object put in storage is a step of the run.
- Sending messages, read marks, message caps and listing threads.
- Payment columns that nothing above reads: who confirmed and when, the provider's payload, audit entries, and the notices of confirmations, rejections and disputes.
- Renewal e-mails and the buyer's address; a user row always exists, as the foreign key has it.
- Cron locks: a job runs alone; what happens when the lock cannot be taken is left out.
- HTTP, request validation, sign-in, e-mail, WhatsApp and logging: calls to services outside the program.
- Search, analytics, admin listings, categories, support tickets and saved artists: single queries without a state of their own.
- Time zones and daylight saving: a day is 86,400,000 ms.
