# A verified model of the checkout and webhook protocol

The backend takes checkouts, creates a Stripe session for each, and learns from Stripe's
webhooks what became of the money. Checkouts, webhook handlers and a periodic sweep run
concurrently over two Postgres tables, `orders` and `webhook_events`; each of them is a
chain of separate statements and may be cut short between any two. This project models
that code statement by statement and proves what holds over every run.

`dafny verify dfyconfig.toml` checks everything.

## How the model is built

| files | contents |
|---|---|
| `Domain`, `Tables` | statuses, the idempotent-duplicate relation, rows, and the effect of each SQL statement or transaction as a function on the two tables |
| `Store` | the same statements as methods of a class that changes its tables in place and may fail at any call |
| `WebhookProgram`, `CheckoutProgram` | the handler and the checkout saga as programs with a program counter and local variables, one store call or local test at a time |
| `Protocol` | the state of everything at once, the actions (clock ticks, sweeps, deliveries, submissions, single steps, ends of request contexts, crashes), and runs |
| `Services` | `Handle` and `CreateCheckoutSession` as imperative code over the store, with any number of actions by others between two calls; each execution is proved to be a run of the protocol |
| `Rows`, `Invariants`, `Completions`, `Moving`, `TableInvariants`, `Provenance`, `ThreadInvariants`, `Runs` | how one row may change, the global invariant that links program counters, rows and time, and the proof that every action keeps it |
| `OrderTheorems`, `EventTheorems`, `ClaimTheorems`, `SagaTheorems`, `CheckoutTheorems`, `PaymentTheorems`, `ReplyTheorems`, `RecordTheorems`, `Confluence` | the results over whole runs |
| `DeliveryTheorems`, `StepTheorems` | what one delivery, and what every single step of a handler, a checkout or a sweep, does to the rows and where it goes next, said in literal columns, statuses and times and not in terms of the programs |
| `Scenarios` | concrete runs that show the exceptions named in the theorems are real |
| `Pricing`, `Ordering`, `Json`, `Canonical`, `Validation` | 32-bit pricing, sorting, JSON text, the canonical request body, input checks |
| `RateLimit` | the fixed-window rate limiter |

The event statuses `processing` and `failed` are called `InFlight` and `Rejected` here,
because orders have statuses of the same names.

## What is assumed

- A store call that returns an error has had no effect. A statement or transaction is one
  atomic step; in particular `CompleteWebhookProcessing` commits the order and the event
  together or not at all.
- The constraints are those of `backend/migrations/000001_init.up.sql:23-65`: unique order
  id, number, key and session, unique event id, positive totals and line amounts. Ids and
  numbers are arbitrary; an insert that reuses one fails, so freshness is not assumed. A
  session id that another order already holds makes the write fail in the same way.
- Store calls made for a checkout run on the context of its request and fail from the
  moment that is over, which may be at any time; calls to Stripe do not use it. That the
  router ends it after 60 seconds (`backend/internal/server/router.go:74-75`) is not built
  in: `TimelyCheckouts` is a hypothesis of the results that need it, as `TimelyRun` is for
  the 120 seconds of webhook requests.
- What an event id carries never changes. Stripe may deliver any event at any time, twice,
  concurrently and in any order. Stripe answers a session request with a non-empty session
  id or an error.
- The database and the servers share one clock, in milliseconds, that never runs back.
- A digest is represented by the text it is taken of: two SHA-256 digests are taken to be
  equal exactly when the texts are. The same goes for access-token hashes. Tokens are not
  empty.
- The catalogue is whatever the database holds at that moment, with prices in
  `1..2147483647`.
- `State.born`, `Hook.claimedAt`, `Cart.mine`, `Cart.calls` and the time in `Finished` only
  record what happened; no step reads them.

## Findings

- One failed claim, without any crash, leaves an event `received` for ever: a `received`
  row is answered "retry later" before the claim, so only the handler that inserted it can
  claim it (`backend/internal/service/webhook.go:92-93`). `OneFaultStrandsAnEvent` gives the
  run, `StrandedForever` shows it is final, `RecoveryExactly` says which events do recover.
- A delivery whose order's status turns the commit away answers "processing failed" without
  reporting the failure (`backend/internal/service/webhook.go:139-141`), so its event stays
  `processing` and every redelivery is told to retry for five minutes, while an event for which
  no completion could be built is marked `failed` and can be redelivered at once.
  `FailedDeliveryCanBeRepeated` says exactly which is which and what redelivery gets;
  `TurnedAwayEventStaysInFlight` is a run.
- `UpdateOrderSession` has no status guard, so nothing in the statement keeps a session off an
  order the sweep has canceled, where a payment would never be recorded
  (`CanceledOrdersTakeNoPayment`). What keeps it off is the time limit on checkout requests,
  and any limit does so if and only if it is no longer than the sweep's fifteen minutes
  (`LimitProtectsIff`). With the router's 60 seconds every success is for an order that is
  never canceled, and any two successes for one key agree (`TimelySuccessIsLive`,
  `TimelyRepliesAgree`).
- Compensation runs on the request's own context
  (`backend/internal/service/checkout.go:247-254`). So a checkout cut off by its client or by
  the time limit cannot cancel its order: the order stays pending and its key "in progress"
  until, and only until, a sweep (`FailedCheckoutExactly`; `CutCheckoutKeepsKey` gives the
  run for any key).
- Two handlers can hold one event at the same time only if a webhook request may live for more
  than the five minutes after which a claim is stale: a limit prevents it if and only if it is
  no longer than that (`WebhookLimitSeparatesIff`). The router's is 120 seconds
  (`NoTwoHolders`).
- `CancelOrder` has no status guard either, but it never needs one (`CancelOnlyUntouchedOrders`).
- The server calls a claim stale from exactly five minutes on, the claiming statement only
  after five minutes (`backend/internal/db/webhooks.go:60` and `:202`). They disagree at that
  one instant and at no other (`StalenessBoundary`); a delivery then is told to retry, and
  one a tick later can claim the event (`BoundaryDelivery`).
- The 32-bit order total can wrap while Stripe charges the exact sum. With unit prices up to
  1,084,587 cents it never wraps (`SafeUnitIsExact`). Above that it can, but up to 2,169,175
  cents every wrapped total is one the table refuses, before Stripe is called
  (`WrappedIsRefused`). A price cap keeps every stored total equal to what Stripe charges if
  and only if it is at most 2,169,175 cents (`StoredTotalIsExactIff`, and over all runs
  `PriceCapProtectsIff`). One cent above, an order is stored at 1,184 cents and charged at
  4,294,968,480 (`WrappedOrderIsStored`). Such an order is never marked paid, if Stripe
  reports what it charged (`PaidTotalsAreExact`).
- The rate limiter holds its limit over an interval of one window's length if and only if
  the interval starts with a window (`LimitHoldsIffAligned`). From any other moment twice the
  limit can get through, and never more.
- Deleting old rate-limit buckets changes no later decision if and only if no request that
  still has to reach the counter read the clock in a deleted window (`CleanupHarmlessIff`).
  One that did gets through although its window was used up (`LaggingRequestGetsThrough`).
  The server never calls the cleanup.

## Model

| member | source | states |
|---|---|---|
| OrderTheorems.OneLiveOrderPerKey | backend/internal/service/checkout.go:36-67 | in every reachable state at most one order created with a key is not canceled |
| OrderTheorems.AtMostOnePaidPerKey | backend/internal/service/order.go:158-186 | of all orders ever created with one idempotency key, at most one is ever paid or refunded, at any two moments of any run |
| OrderTheorems.WebhookStatusNeverCanceled | backend/internal/db/orders.go:222-230 | a status set by a webhook is never overwritten by a cancellation, and canceled is final |
| OrderTheorems.CancelOnlyUntouchedOrders | backend/internal/service/order.go:191-203 | a checkout about to cancel owns an order without a session, pending or already canceled |
| OrderTheorems.NoSessionNoEffect | backend/internal/db/orders.go:189-197 | an order without a session is pending or canceled in every reachable state |
| OrderTheorems.StatusEdges | backend/internal/db/webhooks.go:83-102 | every step keeps an order's status or takes one edge of the life cycle, upwards |
| OrderTheorems.StatusChangesBounded | backend/internal/db/orders.go:260-274 | a status changes at most as often as its rank, so at most three times in any run |
| OrderTheorems.PaidStampWrittenOnce | backend/internal/db/webhooks.go:95-101 | `paid_at` is set exactly in paid and refunded, and never rewritten |
| OrderTheorems.MoneyHasProvenance | backend/internal/service/webhook.go:266-322 | a paid or refunded order has a processed paid event for its own session, its amount to the cent and its currency up to the case of ASCII letters; a refunded one also a processed full refund of its payment intent, amount and currency |
| OrderTheorems.PaidTotalsAreExact | backend/internal/service/webhook_errors.go:30-44 | if Stripe reports exact sums, no paid order's 32-bit total wrapped |
| EventTheorems.CommitsAtMostOnce | backend/internal/db/webhooks.go:111-124 | an event's completion commits at most once in any run |
| EventTheorems.ProcessedIffCommitted | backend/internal/db/webhooks.go:74-125 | an event is processed exactly when its completion has committed |
| EventTheorems.LosersChangeNothing | backend/internal/db/webhooks.go:120-124 | a completing transaction that does not commit leaves both tables as they were |
| EventTheorems.AcknowledgementIsDurable | backend/internal/service/webhook.go:86-143 | an acknowledged event of a handled type is processed for good, and its order satisfies what it asked for in every later state |
| EventTheorems.StatusIsVerdict | backend/internal/db/webhooks.go:94-108 | in every reachable state an order's status follows from which events have committed for it, whatever their order, and is pending or canceled when none has that asks for one |
| PaymentTheorems.StatusIsDecided | backend/internal/db/webhooks.go:94-108 | the status is a function of the committed events and, when none asks for one, of whether a sweep or the order's own checkout has canceled it |
| EventTheorems.StaleReadsAreHarmless | backend/internal/service/webhook.go:182-199 | committing a completion built from an earlier read has the same outcome as looking up and rebuilding at commit time; a refund is never turned away |
| ClaimTheorems.RowTouched | backend/internal/db/webhooks.go:52-182 | only a handler of the event changes its row, by a claim, a completion or a failure report, and which of them shows in the new status |
| ClaimTheorems.ClaimsAreSeparated | backend/internal/db/webhooks.go:52-71 | two successful claims of one event are separated by a handler's failure report that lands, or by more than five minutes |
| ClaimTheorems.TwoNeverHold | backend/internal/db/webhooks.go:52-71 | if the contexts of webhook requests end with a limit of up to five minutes, past which handlers run on with failing calls, no two handlers within the limit are past the claim on one event |
| ClaimTheorems.NoTwoHolders | backend/internal/server/router.go:124-128 | the same for the 120-second limit |
| Scenarios.WebhookLimitSeparatesIff | backend/internal/db/webhooks.go:13-13 | a request limit keeps handlers apart in every run if and only if it is at most five minutes |
| Scenarios.SlowHandlersShareAnEvent | backend/internal/db/webhooks.go:52-71 | a run in which a second handler claims an event while the first, five minutes on, is still at work |
| DeliveryTheorems.RecoveryExactly | backend/internal/service/webhook.go:86-128 | one fault-free delivery gets past the claim exactly for new, failed and stale events |
| DeliveryTheorems.DeliveryAnsweredExactly | backend/internal/service/webhook.go:81-143 | how one fault-free delivery is answered and what it leaves in both tables: acknowledged if and only if the event is processed, or claimable with an order that is found, agrees in amount and currency and has one of the statuses listed per event type, and then event row and order row are as written; failed if claimable otherwise; retry, and nothing written, in every other case |
| DeliveryTheorems.CommitExactly | backend/internal/db/webhooks.go:81-109 | building a completion and running the order half of the transaction succeeds exactly for the rows listed, and writes exactly the columns listed |
| DeliveryTheorems.FailedDeliveryCanBeRepeated | backend/internal/db/webhooks.go:170-182 | a failed delivery leaves its event failed, and a redelivery is acknowledged exactly if the order takes it then; or, exactly if the order's status turned the commit away, in flight, and redeliveries wait five minutes first |
| DeliveryTheorems.UnhandledAnsweredExactly | backend/internal/service/webhook.go:115-120 | a delivery of another type is acknowledged and marked ignored, unless it is recorded as received |
| Scenarios.TurnedAwayEventStaysInFlight | backend/internal/service/webhook.go:139-141 | a run in which a failure reported for an expired order leaves its event in flight |
| ClaimTheorems.ReportLands | backend/internal/db/webhooks.go:170-182 | a failure report that lands marks the event failed and touches nothing else |
| DeliveryTheorems.StalenessBoundary | backend/internal/db/webhooks.go:194-203 | the server's staleness test and the claim's disagree exactly five minutes after the claim and at no other instant |
| DeliveryTheorems.BoundaryDelivery | backend/internal/service/webhook.go:94-97 | a delivery at that instant is told to retry and writes nothing, one a tick later can claim |
| StepTheorems.HandlerStepExactly | backend/internal/service/webhook.go:57-180 | every step of every handler in every run, with or without a fault: its next place or its answer by status, and the row it writes; a commit succeeds exactly if the event is in flight and its order takes it now |
| StepTheorems.CheckoutStepExactly | backend/internal/service/order.go:141-226 | every step of every checkout in every run, with or without a fault: its next place or its reply with every field, and every column it writes |
| StepTheorems.SubmitStepExactly | backend/internal/service/order.go:153-158 | a checkout starts with the hash of its own request, at its key if it has one |
| StepTheorems.SweepStepExactly | backend/internal/db/orders.go:260-274 | a sweep cancels exactly the pending orders without a session older than fifteen minutes, says why, and changes nothing else |
| Domain.EqualFoldExactly | backend/internal/service/webhook_errors.go:40-42 | currencies are equal exactly if at each position they have the same character or the two cases of one ASCII letter, by code |
| WebhookProgram.AmountOkExactly | backend/internal/service/webhook_errors.go:30-60 | the amount check passes exactly for a positive amount equal to the total and a non-empty equal currency |
| Domain.EffectSatisfiedExactly | backend/internal/domain/webhook_order.go:5-22 | an effect counts as already there exactly in the listed statuses an order receives the event in without being moved |
| ClaimTheorems.ReceivedHasOneClaimer | backend/internal/service/webhook.go:101-126 | at most one handler is ever about to claim a received event |
| ClaimTheorems.StrandedForever | backend/internal/service/webhook.go:92-93 | a received event nobody is about to claim stays received in every continuation and is never acknowledged |
| ClaimTheorems.UnhandledOnlyIgnored | backend/internal/service/webhook.go:115-120 | events of other types are only ever received or ignored, handled ones never ignored |
| Scenarios.OneFaultStrandsAnEvent | backend/internal/service/webhook.go:122-125 | for every handled event there is a run in which one failed claim strands it |
| CheckoutTheorems.RepliesAgree | backend/internal/service/order.go:212-226 | any two successes for one key show the same order, number, session, URL and secret and answer equal requests, if neither order was canceled |
| CheckoutTheorems.CanceledReplies | backend/internal/db/orders.go:260-274 | the order behind a success is canceled if and only if the checkout created it and a sweep found it pending, without a session and stale at an earlier step; the answer then came over fifteen minutes after the request began |
| CheckoutTheorems.TimelySessionsAreLive | backend/internal/server/router.go:74-75 | with a request limit up to fifteen minutes no session is ever on a canceled order, in any reachable state |
| CheckoutTheorems.TimelySuccessIsLive | backend/internal/server/router.go:74-75 | with the 60-second limit the order behind a success is never canceled |
| CheckoutTheorems.TimelyRepliesAgree | backend/internal/service/checkout.go:53-67 | with the 60-second limit any two successes for one key show the same order, number, session, URL and secret and answer equal requests |
| Scenarios.LimitProtectsIff | backend/internal/server/router.go:74-75 | a request limit keeps sessions off canceled orders in every run if and only if it is at most fifteen minutes |
| CheckoutTheorems.LookupDecides | backend/internal/service/checkout.go:47-67 | what a taken key is answered with: release, conflict exactly for a different request, in progress exactly without a session, or replay |
| ReplyTheorems.LostInsertGoesBack | backend/internal/service/order.go:176-181 | a checkout whose insert meets another order with its key goes back to the key |
| ReplyTheorems.LostRaceEnds | backend/internal/service/order.go:176-183 | two fault-free steps later it has replayed the live order of an equal request, or been refused: conflict exactly for a different request, in progress exactly without a session |
| ReplyTheorems.RefusedAsTakenMeans | backend/internal/service/order.go:176-183 | a request with a key is refused with a unique violation only after its insert met another order's id, number or key and a later lookup found the key free or its order canceled |
| ReplyTheorems.TokenAnswered | backend/internal/service/checkout.go:60-67 | the non-empty token in a reply is the one its order row stores at that step |
| ReplyTheorems.TokenStays | backend/internal/db/orders.go:200-211 | the token of an order changes only by a replay of that order |
| ReplyTheorems.TokenOpensOrder | backend/internal/service/checkout.go:60-67 | the token in a reply is the order's in every later state until the order is replayed |
| RecordTheorems.MetadataSayWhy | backend/internal/db/orders.go:222-274 | an order's metadata are those of the request that created it, its hash, and the reason for the cancellation exactly if it is canceled: the checkout's own or the sweep's |
| RecordTheorems.NumbersAreUnique | backend/migrations/000001_init.up.sql:25-25 | no two orders ever have one number |
| CheckoutTheorems.KeyNeverStuck | backend/internal/service/checkout.go:47-59 | after one sweep fifteen minutes on, a lookup never answers "in progress": there is a session, or one more statement frees the key |
| SagaTheorems.SagaOutcome | backend/internal/service/order.go:176-205 | a finished checkout has made exactly the calls its reply stands for, fewer than three failed writes only with a cancellation that fails as well; the session expired is the one Stripe returned, and so is the one a success shows; a success leaves the returned session on the row and a cancellation that worked leaves it canceled without key, for ever |
| SagaTheorems.CanceledExactly | backend/internal/db/orders.go:222-274 | an order is canceled if and only if a sweep found it stale at an earlier step or the checkout that created it canceled it |
| SagaTheorems.FailedCheckoutExactly | backend/internal/service/checkout.go:247-254 | a checkout that failed after its insert leaves no session; if its cancellation failed, as it must on a context that is over, the order stays pending with its key until, and only until, a sweep |
| Scenarios.CutCheckoutKeepsKey | backend/internal/service/checkout.go:247-254 | for any key there is a run in which a checkout is cut off, cannot compensate, and leaves a pending order holding the key |
| CheckoutTheorems.CanceledOrdersTakeNoPayment | backend/internal/db/webhooks.go:127-157 | no event that asks for a status of a canceled order's session is ever processed |
| PaymentTheorems.DeadOrdersTakeNoPayment | backend/internal/db/webhooks.go:94-108 | no event that reports a payment is ever processed for an order that was canceled, has failed or has expired |
| PaymentTheorems.PaidEventIsAcknowledgedIff | backend/internal/service/webhook.go:266-322 | after any success, a fault-free delivery of a claimable event reporting its session paid is acknowledged if and only if the amounts agree and the order has neither failed nor expired |
| Scenarios.UnlimitedCheckoutReturnsCanceledOrder | backend/internal/db/orders.go:189-197 | without such a limit there is a run in which a checkout stores its session on an order the sweep had canceled and reports success |
| Confluence.DeliverySettles | backend/internal/db/webhooks.go:94-108 | what one completing transaction does to a status, and exactly when it is accepted |
| Confluence.DeliveryWrites | backend/internal/service/webhook.go:266-354 | everything a session event writes to its order, from building the completion to the UPDATE |
| Confluence.DeliveriesFollowFinal | backend/internal/db/webhooks.go:94-108 | any sequence of deliveries drives the order row along the status automaton and touches no other order |
| Confluence.DeliveriesAreConfluent | backend/internal/domain/webhook_order.go:5-22 | without a clash the final status depends only on which kinds of event occurred, not on order or repetition |
| Confluence.ConfluentIff | backend/internal/domain/webhook_order.go:5-22 | a set of event kinds is confluent if and only if no two of them clash: within completed-unpaid with paid, completed-unpaid with failed, or expired alone |
| Confluence.DeliveriesConfluentIff | backend/internal/db/webhooks.go:94-108 | the same of deliveries to a pending order row, for any kinds of event there can be about it |
| Confluence.AllKindsDeliverable | backend/internal/service/webhook.go:266-354 | all four kinds of session event can occur for an order with a session, a positive total and a currency |
| Runs.RunInv | backend/internal/service/webhook.go:57-144 | the global invariant holds in every state of every run |
| ThreadInvariants.StepInv | backend/internal/service/order.go:141-206 | every action of anyone keeps the global invariant |
| Moving.StepMoves | backend/internal/db/orders.go:189-274 | every action moves every order and event row within fixed bounds, whoever acts |
| Runs.OrderEvolves | backend/internal/db/orders.go:150-274 | an inserted order is never lost; its identity is fixed, its session and payment stamp are frozen once set |
| Runs.EventStays | backend/internal/db/webhooks.go:43-191 | event rows are never lost and a processed one never changes |
| Completions.CompletionStable | backend/internal/service/webhook.go:216-354 | a completion stays sound while the rows it was built from evolve |
| Completions.CompletionFacts | backend/internal/service/webhook.go:182-354 | what a sound completion says about its event, order, target and allowed statuses |
| Services.WebhookService.Handle | backend/internal/service/webhook.go:57-144 | each execution under interference is a run of the protocol ending in the outcome returned; acknowledged means effective |
| Services.WebhookService.HandleExisting | backend/internal/service/webhook.go:86-98 | refines the protocol from the first read on |
| Services.WebhookService.HandleNew | backend/internal/service/webhook.go:99-113 | refines the protocol from the insert on, including the lost insert race |
| Services.WebhookService.HandleExistingAfterInsertRace | backend/internal/service/webhook.go:146-160 | refines the protocol's answer after a lost insert race |
| Services.WebhookService.HandleUnclaimedEvent | backend/internal/service/webhook.go:162-180 | refines the protocol's answer when the claim matched no row |
| Services.WebhookService.Process | backend/internal/service/webhook.go:130-143 | lookup, build, then commit or failure report, as the protocol has it |
| Services.OrderService.CreateCheckoutSession | backend/internal/service/order.go:141-206 | rejects exactly invalid input without touching anything; otherwise runs the saga for this request and key to its end with the outcome of SagaOutcome |
| Services.OrderService.ResolveIdempotency | backend/internal/service/checkout.go:31-68 | replies, or leaves the saga at pricing, or, second time round, at the failed insert |
| Services.OrderService.Replay | backend/internal/service/checkout.go:60-67 | answers from the stored row with a renewed token, or refuses |
| Services.OrderService.InsertPendingOrder | backend/internal/service/order.go:176-183 | inserts before Stripe is called; a unique violation goes back to the key |
| Services.OrderService.StartStripeCheckout | backend/internal/service/order.go:189-205 | asks Stripe for exactly one session, for this order, and keeps it or undoes the checkout; a session is expired exactly on a failure to store it |
| Services.OrderService.PersistSessionWithRetry | backend/internal/service/checkout.go:215-234 | up to two failed writes and a success, or three failures, or fewer with the context over |
| Services.OrderService.TryPersist | backend/internal/service/checkout.go:225-231 | one recorded write, and after a failure the end of the request shows |
| Services.OrderService.CompensateFailedCheckout | backend/internal/service/checkout.go:247-254 | asks Stripe to expire that very session, then cancels, and refuses |
| Stores.Store.GetWebhookEvent | backend/internal/db/webhooks.go:27-40 | returns the row as it is, None when missing, or an error |
| Stores.Store.InsertWebhookEvent | backend/internal/db/webhooks.go:43-49 | inserts a received row, or fails and changes nothing; a unique violation means the row is there |
| Stores.Store.ClaimWebhookEvent | backend/internal/db/webhooks.go:52-71 | true exactly when the row was claimable, and then it is in flight from now |
| Stores.Store.CompleteWebhookProcessing | backend/internal/db/webhooks.go:74-125 | commits exactly the specified transaction or changes nothing, with the reason |
| Stores.Store.EnsureOrderWebhookEffect | backend/internal/db/webhooks.go:127-157 | accepts an UPDATE without effect only from an order already past the target |
| Stores.Store.FailWebhookEvent | backend/internal/db/webhooks.go:170-182 | lands only on an event in flight |
| Stores.Store.MarkWebhookIgnored | backend/internal/db/webhooks.go:185-191 | marks the row or changes nothing |
| Stores.Store.GetOrderBySessionID | backend/internal/db/orders.go:19-23 | a row with that session, None exactly when there is none |
| Stores.Store.GetOrderByPaymentIntentID | backend/internal/db/orders.go:26-30 | some row with that intent, None exactly when there is none |
| Stores.Store.GetOrderByIdempotencyKey | backend/internal/db/orders.go:99-103 | a row with that key, None exactly when there is none |
| Stores.Store.InsertOrderWithItems | backend/internal/db/orders.go:150-186 | order and items together or nothing; which constraint failed |
| Stores.Store.StoreOrderSession | backend/internal/db/orders.go:189-197 | writes session, URL and secret, or fails and changes nothing |
| Stores.Store.UpdateOrderAccessTokenHash | backend/internal/db/orders.go:200-211 | replaces the token; fails on a missing row |
| Stores.Store.ClearOrderIdempotencyKey | backend/internal/db/orders.go:214-219 | releases the key of a canceled order only |
| Stores.Store.CancelOrderRow | backend/internal/db/orders.go:222-230 | cancels whatever row has the id and releases its key |
| Stores.Store.SweepStalePendingOrders | backend/internal/db/orders.go:260-274 | cancels exactly the pending orders without a session older than fifteen minutes, and counts them |
| Pricing.Wrap32 | backend/internal/service/checkout.go:96-97 | the 32-bit value congruent to an integer |
| Pricing.BuildCheckoutLineItems | backend/internal/service/checkout.go:85-124 | the loop computes the specified lines, wrapped total and currency, or the specified error |
| Pricing.PricingSucceedsIff | backend/internal/service/checkout.go:85-124 | succeeds exactly when all products exist and share one currency; lines are those of the cart, position by position |
| Pricing.PricingErrorIsFirst | backend/internal/service/checkout.go:86-94 | the first item that cannot be priced decides the error |
| Pricing.TotalCongruentToStripe | backend/internal/service/checkout.go:96-113 | for any prices the stored total is congruent to Stripe's sum modulo 2^32 |
| Pricing.NoNetWrapWhenAmountsAgree | backend/internal/service/webhook_errors.go:34-36 | the total equals Stripe's sum if and only if that sum fits 32 bits |
| Pricing.SafeUnitIsExact | backend/internal/service/checkout.go:96-97 | 1,084,587 is exactly the price cap below which the total computed for an accepted cart never wraps |
| PaymentTheorems.StoredTotalIsExactIff | backend/migrations/000001_init.up.sql:28-28 | a price cap makes every total the table takes the one Stripe charges if and only if it is at most 2,169,175 |
| PaymentTheorems.WrappedIsRefused | backend/internal/db/orders.go:150-186 | up to that cap an order whose total wrapped is refused by a check constraint |
| PaymentTheorems.DearestCartIsStored | backend/internal/service/checkout.go:96-113 | twenty lines of 99 one cent above that cap: the stored total is 1,184, Stripe's sum 4,294,968,480 |
| PaymentTheorems.StoredTotalsAreExact | backend/internal/service/checkout.go:85-124 | with catalogue prices up to that cap every total stored in any run is the exact sum |
| Scenarios.WrappedOrderIsStored | backend/internal/service/order.go:162-183 | a run that stores that order |
| Scenarios.PriceCapProtectsIff | backend/internal/service/checkout.go:96-113 | a cap on catalogue prices keeps stored totals exact in every run if and only if it is at most 2,169,175 |
| Validation.AcceptedCartTotalIsExact | backend/internal/service/checkout.go:85-123 | for validated carts under that cap the total is positive, exact and fits |
| Validation.ValidateCheckoutInput | backend/internal/service/checkout_validation.go:19-52 | rejects exactly the requests that are not valid, and the error reported is the first check that fails |
| Validation.ValidRequestExactly | backend/internal/service/checkout_validation.go:11-80 | what is accepted, in numbers and in bytes of UTF-8 |
| Validation.ValidKeyExactly | backend/internal/service/checkout_validation.go:54-62 | a key is accepted exactly up to 128 bytes of UTF-8 |
| Validation.ValidateItems | backend/internal/service/checkout_validation.go:38-50 | the first offending item is reported with its problem |
| Validation.ValidateMetadata | backend/internal/service/checkout_validation.go:64-80 | rejects exactly metadata with an offending entry or too many, whatever the iteration order |
| Validation.ValidateIdempotencyKey | backend/internal/service/checkout_validation.go:54-62 | rejects exactly keys over 128 bytes |
| Ordering.SortStrings | backend/internal/service/checkout_canonical.go:33-33 | the in-place sort leaves a sorted permutation |
| Ordering.SortedListingIsUnique | backend/internal/service/checkout_canonical.go:29-33 | a sorted listing of a key set does not depend on the order it was collected in |
| Canonical.CollectKeys | backend/internal/service/checkout_canonical.go:29-32 | collects every key once, in any order |
| Canonical.BuildCanonicalBody | backend/internal/service/checkout_canonical.go:22-40 | the body built is a function of the request alone |
| Json.RenderInjective | backend/internal/service/checkout_canonical.go:42-42 | JSON text determines the tokens it was written from |
| Canonical.CanonicalTextInjective | backend/internal/service/checkout_canonical.go:10-48 | two requests have equal canonical text if and only if mode, items, address and metadata are equal |
| Canonical.CanonicalTextExactly | backend/internal/service/checkout_canonical.go:10-42 | the text that is hashed, letter for letter |
| Json.EscapeExactly | backend/internal/service/checkout_canonical.go:42-42 | which characters are escaped, and how |
| RateLimit.Buckets.Increment | backend/internal/db/ratelimit.go:9-20 | adds one to the bucket and returns the new count, or fails and counts nothing |
| RateLimit.Buckets.Cleanup | backend/internal/db/ratelimit.go:23-29 | deletes exactly the buckets of windows before the cutoff |
| RateLimit.Buckets.Admit | backend/internal/middleware/ratelimit_db.go:24-40 | passes exactly while the count is within the limit; answers unavailable, uncounted, if the counter fails |
| RateLimit.Buckets.AdmitAll | backend/internal/middleware/ratelimit_db.go:24-40 | the requests of any sequence that reach the counter get the specified decisions, whichever others fail |
| RateLimit.WindowAdmitsExactly | backend/internal/middleware/ratelimit_db.go:24-40 | each window admits exactly the smaller of its requests and the limit |
| RateLimit.AlignedAdmitsExactly | backend/internal/middleware/ratelimit_db.go:24-40 | of the requests a key makes in an aligned window exactly the limit are let through, or all if fewer, whatever other keys and windows do |
| RateLimit.SlidingBound | backend/internal/middleware/ratelimit_db.go:24-40 | an interval of one window's length admits at most twice the limit |
| RateLimit.UnalignedReachesTwice | backend/internal/middleware/ratelimit_db.go:24-40 | from every moment that does not start a window, twice the limit does get through, for any limit |
| RateLimit.LimitHoldsIffAligned | backend/internal/middleware/ratelimit_db.go:24-40 | the limit holds over an interval of one window's length, for all requests, if and only if the interval starts with a window or the limit lets nothing through |
| RateLimit.CleanupHarmlessIff | backend/internal/db/ratelimit.go:23-29 | a cleanup changes no later decision, whatever the counters, if and only if no later request is for a removed window, or nothing is let through at all |
| RateLimit.LaggingRequestGetsThrough | backend/internal/middleware/ratelimit_db.go:24-36 | for any limit and any later requests one of which lags behind, there are counters for which the cleanup changes a decision |
| RateLimit.CleanupChangesNoDecision | backend/internal/db/ratelimit.go:23-29 | cleaning out windows before the current one, amid any requests, changes no decision on requests that read the clock from then on |

## Left out

- HTTP handlers, router, cookies, logging, metrics, configuration, the frontend, and accounts: no deep state of their own.
- Signature verification and the parsing of event bodies: a handled event carries either typed data or a body that does not parse. The failure to re-encode an event that has just been parsed (`backend/internal/service/webhook.go:100-103`) is not modelled.
- The Stripe SDK: Stripe is an environment that answers a request with a session or an error and emits events; `buildStripeSessionParams` is represented by its line items only.
- SHA-256, token generation and the check of a presented token: digests are represented by what they are taken of.
- Columns no modelled decision reads: success, cancel and return URL, customer email, `updated_at`, event row id and stored payload; product descriptions; the foreign keys of items and events.
- Currency codes are compared without regard to case within ASCII only; folding beyond ASCII is not modelled.
- Strings are sequences of Unicode scalar values: bytes that are not valid UTF-8, which JSON encoding would replace, are not modelled.
- Postgres isolation levels, row locks and commits whose outcome the server does not learn: each statement or transaction is atomic.
- `UpdateOrderStatus`, `UpdateOrderStatusIfAllowed` and `MarkWebhookProcessed`: no production code calls them, and the first would break the status invariants.
- Order listing, access checks on reads, product seeding and mapping to transfer objects: straight copies.
- The pause between two persistence attempts: only its interruption by the end of the request is modelled.
- The context of a webhook request is no state of its own: its end shows as store calls that fail. Any store call may fail in every result, and `TimelyRun` asks only that all do past the limit.
- DeliveryTheorems.DeliveryAnsweredExactly: is about a delivery that nobody interferes with and during which the clock stands still; deliveries under interference are covered step by step in HandlerStepExactly and by the results over runs.
- The rate limiter's response headers and the composition of its key from route name and address. `CleanupRateLimitBuckets` is modelled although the server never calls it.
- Ordering.SortStrings: the library's sort is modelled by a selection sort; only that the result is a sorted permutation matters here.
