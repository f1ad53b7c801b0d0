# Shop verification

Dafny models and proofs for the services of a Go web shop: Order Service, Payment Service, Product Service
and User Service, which work together through PostgreSQL, Redis and RabbitMQ.

`dafny verify dfyconfig.toml` checks everything.

## What is modelled

**The order saga.** Order Service reserves stock item by item over RPC, stores the order, and publishes
`order.created`. Payment Service turns that into a payment and later publishes an outcome. Order Service turns
the outcome into one release or confirm message per item, and Product Service applies those through an inbox
table. There is no lock and no distributed transaction: only guarded single-statement updates, `WithTx`, and a
broker that delivers at least once. `Saga.dfy` is this protocol as one transition system. A step is one statement,
RPC, publish or broker action; step labels choose everything the code does not control (replies, failures,
crashes, redelivery, interleaving). A run is any sequence of enabled steps, and the theorems hold of every run.

**Each call on its own.** Code that works by changing things in place is also modelled in place: `CreateOrder` with
its reservation and compensation loops, the bulk insert that scatters returned rows over the items, the payment
outcome handlers, `VerifyPayment`, the product cache decorator and the stock consumers are classes and methods
over arrays, maps and logs, proved against functions or predicates of their inputs and their old state.

**The product cache** (as a sequential object, and with interleaved readers and writers under a clock),
**the cache keys**, **refresh-token rotation** and **one-time codes** complete the project.

| file | content |
|---|---|
| `Basics.dfy`, `Sums.dfy` | ids, results, weighted sums over sequences |
| `Products.dfy`, `StockEvents.dfy`, `StockLedger.dfy` | the products table, the consumers' transaction, the books of stock |
| `Saga.dfy`, `SagaControl.dfy` | the transition system and its control invariant |
| `SagaConservation.dfy`, `SagaCompensation.dfy`, `SagaDelivery.dfy`, `SagaStatus.dfy`, `SagaAgreement.dfy`, `SagaCounterexample.dfy` | what holds over every run, and what does not |
| `SagaLabels.dfy`, `SagaSteps.dfy`, `SagaProgress.dfy` | the state as a function of the steps taken, and that no run gets stuck |
| `OrderModel.dfy`, `OrderRepository.dfy`, `CreateOrder.dfy`, `PaymentOutcomes.dfy` | Order Service, call by call |
| `Payments.dfy`, `PaymentFlow.dfy`, `PaymentLabels.dfy`, `CallbackOutcomes.dfy`, `OrderlyCallbacks.dfy` | Payment Service |
| `EndToEnd.dfy`, `JointRuns.dfy`, `StuckPayments.dfy` | both services together |
| `CacheKeys.dfy`, `ProductCache.dfy`, `CacheStaleness.dfy`, `CacheCurrency.dfy` | the product cache |
| `RefreshTokens.dfy`, `RefreshLabels.dfy`, `OneTimeCodes.dfy` | User Service's two token protocols |

## Conventions and assumptions

- A generated uuid is fresh: in the protocols it is a position in an append-only sequence. `uuid.Nil` is 0. In cache
  keys the decimal text of the number stands for the uuid's text; what the proofs use is that it is injective and
  has no `:`.
- Fields named `sent`, `applied`, `wins`, `cause`, `session`, `parent`, `looked`, `at`, `requests`, `announced`, `decided`, `held`,
  `base`, `version`, `late` and `owed` are history: they record what a run did and no step reads them to decide
  anything.
- The items of one order share their `created_at`, by which they are read back
  (`services/order-service/internal/repository/order.go:333`), so each delivery of an outcome may come to them in an
  order of its own.
- Timestamps are not columns of the model. Every UPDATE of a product sets `updated_at`, which the cached value
  contains; so "agrees with the row", and in `InvalidationIsWhatIsNeeded` and `Commit` "nothing changed", are said of
  the other columns.
- A publish either enqueues its message and succeeds or fails and enqueues nothing. `WithTx` is all or nothing, and
  an error from it means nothing was stored. A reservation, a delete in Redis and an ack may be carried out although
  the reply is lost.
- `int32` and `int64` limits are written out: the INTEGER range and CHECK constraints of the products table, and the
  wrap-around of Go's `int64` in order totals.
- An outcome reaches Order Service only for an order whose `order.created` was published, and nobody calls the
  ReleaseStock and ConfirmStock RPCs directly.
- A gateway reply is any of success, refusal or error. Raw product search is any function of its arguments and the moment.

## Where the code and what is said about it part

- `docs/architecture.md:239` wants redelivered events to have no repeated effect. Order Service's outcome handlers do
  not consult an inbox and mint new event ids each time (`services/order-service/internal/messaging/publisher.go:78`),
  so a redelivered outcome sends its stock messages again. `ConservationOverEveryRun` gives the exact condition under
  which stock is conserved all the same, and `RedeliveryGivesAwayStock` a run in which it is not. Nor do they look at the stored status:
  `AgreesExactlyUnlessContradicted` says exactly when their messages fit it.
- The search keys join category and query with `:` and accept any category, so one search can be given another's answer:
  `SecondSearch` says exactly when, and `SpoiledSearch` that a category containing `:` does this to searches without one.
- The comment above both stock consumers says that the inbox insert and the stock statement are not in one transaction;
  the code runs both in one `WithTx`, and the model does too.
- `awaiting` is not among the statuses the schema accepts and `UpdateFromPending` does not write `authority`, so the
  callback path that `VerifyPayment` is written for is never entered. `NoPaymentEverCompletes` proves it for Payment
  Service alone and `NothingIsEverSold` for both services together. `AcceptedPaymentIsStuck` follows such
  a payment and its order through every continuation. `OneOutcomeExactlyWhenGuarded` shows what `VerifyPayment`
  guarantees from any payments table, so also once that is repaired.
- `Order.CanTransitionTo` does not allow `failed`; `CreateOrder` writes it through `UpdateStatus`, which does not ask.

## Model

| member | source | states |
|---|---|---|
| `Products.StatementsStayInRange` | services/product-service/internal/repository/product.go:498-635 | From a table that meets its constraints no stock statement overflows an INTEGER or hits a CHECK; each is refused exactly by its own guard, and the constraints hold again |
| `Products.StatementsByColumns` | services/product-service/internal/repository/product.go:305-635 | Column by column what each statement writes: the stock statements one or two stock columns, Update the details and the active flag, Delete the active flag; and the errors of the last two |
| `Products.ReserveThenSettle` | services/product-service/internal/repository/product.go:513-616 | Releasing what was just reserved restores the whole table; confirming it takes exactly that quantity out of the total |
| `StockEvents.DeliverTwice` | services/product-service/internal/messaging/stock_release_consumer.go:65-120 | A second delivery of an event changes nothing, and is acknowledged if the first took effect |
| `StockEvents.NoneRefused` | services/product-service/internal/repository/product.go:549-635 | If reserved stock covers a family of distinct events, none is ever refused, in any delivery order, with any duplication and any reservations in between |
| `StockEvents.Convergence` | services/product-service/internal/messaging/stock_confirm_consumer.go:43-135 | Every delivery order that delivers each event at least once ends in one and the same table, given in closed form |
| `StockLedger.CommitKeeps` | services/product-service/internal/messaging/stock_release_consumer.go:65-120 | Inbox insert and stock statement together keep the books: both stock columns remain what the run's effects add up to |
| `StockLedger.HoldKeeps` | services/product-service/internal/repository/product.go:498-543 | A committed reservation keeps the books |
| `StockLedger.SendKeeps` | services/order-service/internal/messaging/publisher.go:70-113 | Publishing a stock message for a held item keeps the books |
| `StockLedger.Conservation` | services/order-service/internal/service/helper.go:176-253 | Reserved stock plus what was messaged in excess equals initial reservation plus open holds plus unapplied messages |
| `StockLedger.ExactlyWhenSentOnce` | services/order-service/internal/messaging/publisher.go:70-113 | Reserved stock covers open holds and messages in flight if and only if no item of the product was messaged twice |
| `StockLedger.NoGenuineMessageRefused` | services/product-service/internal/repository/product.go:549-635 | Then no unapplied release or confirm can be refused |
| `SagaControl.StepKeeps` | services/order-service/internal/service/order.go:72-132 | Every step of the saga keeps the invariant tying each call's progress to what it holds and has messaged |
| `SagaControl.RunKeeps` | services/order-service/internal/service/order.go:72-132 | So does every run |
| `SagaConservation.LedgerOverEveryRun` | services/product-service/internal/repository/product.go:498-635 | In every run, with any redelivery, failure and crash: reserved is initial plus reserves minus distinct applied releases and confirms, total is initial minus distinct applied confirms, 0 <= reserved <= total <= 2^31 - 1, and each message is applied exactly when its id is in the inbox |
| `SagaConservation.StepSendsOnce` | services/order-service/internal/messaging/consumer.go:92-249 | The only step that can message an item twice is a handler publishing for an item already messaged |
| `SagaConservation.ConservationOverEveryRun` | services/order-service/internal/messaging/consumer.go:92-249 | In every run reserved stock covers every open hold and every message in flight if and only if no handler ever published again for an item of that product |
| `SagaConservation.NoMessageRefused` | services/product-service/internal/messaging/stock_confirm_consumer.go:43-135 | In such a run no genuine release or confirm is ever refused: processing it commits and acknowledges it |
| `SagaConservation.SentOncePerDelivery` | services/order-service/internal/messaging/consumer.go:144-166 | An item of an accepted order is messaged at most once exactly when at most one delivery of its outcome published it, in whatever order each delivery reads the items |
| `SagaConservation.OneDeliveryConserves` | services/order-service/internal/messaging/consumer.go:92-249 | If at most one delivery per order gets as far as publishing, reserved stock equals initial reservation plus open holds plus messages in flight, for every product |
| `SagaConservation.OpenHoldsSplit` | services/order-service/internal/service/order.go:72-132 | The open holds are those of calls in progress, of orders awaiting their outcome, and those a lost reply, a lost compensation message or a crash left behind |
| `SagaCompensation.StepForgets` | services/order-service/internal/service/helper.go:176-253 | A step leaves a held item behind for good exactly if it loses its reservation's reply, its compensation message or the process holding it |
| `SagaCompensation.ForgottenExactlyWhenLost` | services/order-service/internal/service/helper.go:213-253 | Over every run, a reserved item is never settled and never will be if and only if one of these losses happened for its product |
| `SagaCompensation.EveryItemAccountedFor` | services/order-service/internal/service/order.go:72-132 | Without loss and republishing, reserved stock is exactly initial reservation plus calls in progress plus orders awaiting their outcome plus messages in flight |
| `SagaCounterexample.RedeliveryGivesAwayStock` | services/order-service/internal/messaging/publisher.go:70-90 | A run in which two deliveries of one payment.failed release another order's stock |
| `SagaDelivery.NeverLostNeverTwice` | pkg/rabbitmq/consumer.go:202-239 | At every moment of every run each stock message is with the broker and without effect, or in the inbox with its effect committed exactly once; crashes between commit and ack included |
| `SagaDelivery.ProcessIsTheConsumer` | services/product-service/internal/messaging/stock_release_consumer.go:44-139 | A processing step does to the database what the consumer's transaction does, and requeues exactly on its error |
| `SagaDelivery.MessagesAreStable` | services/product-service/internal/repository/event.go:36-77 | A message keeps its id and content, and its inbox entry is never undone |
| `SagaStatus.SingleWinner` | services/order-service/internal/repository/order.go:455-496 | In every interleaving at most one updater of an order is told it succeeded, exactly one once it has left pending; `failed` only for orders never announced, confirmed and cancelled only for announced ones |
| `SagaStatus.StatusIsFrozen` | services/order-service/internal/repository/order.go:463-467 | A status that has left pending never changes again |
| `SagaLabels.StatusByLabels` | services/order-service/internal/service/order.go:90-123 | By the steps of the run alone: no row before the insert succeeds, pending until the first decision, that decision ever after, and `failed` exactly if an UpdateStatus(failed) went through |
| `SagaLabels.EndedStoredMeansMarked` | services/order-service/internal/service/order.go:98-130 | A call has ended with an error over a stored order exactly if it tried to mark the order failed |
| `SagaLabels.LinesAsAsked` | services/order-service/internal/service/helper.go:136-163 | The calls in the state are those the run started, and their lines carry the products and quantities each was asked for |
| `SagaSteps.AcceptedExactlyWhenAnnounced` | services/order-service/internal/service/order.go:98-132 | An order is accepted exactly if its order.created was published |
| `SagaSteps.HandlersAsReceived` | services/order-service/internal/messaging/consumer.go:26-90 | The handler runs are the deliveries of the run, each for its order and its outcome |
| `SagaSteps.OverIsOver` | services/order-service/internal/service/order.go:39-133 | A call that has returned or died takes no step any more |
| `SagaSteps.ReturnedIsOver` | services/order-service/internal/messaging/consumer.go:92-249 | Nor does a handler run that has returned |
| `SagaSteps.CrashAndReturnEnd` | services/order-service/internal/service/order.go:98-132 | A crash, a mark as failed and a successful announcement end a call; a return ends a handler run |
| `SagaSteps.BagsStep` | pkg/rabbitmq/consumer.go:202-239 | How each step moves the copies of a message between queued, unacked and settled |
| `SagaSteps.CopiesByLabels` | pkg/rabbitmq/consumer.go:202-239 | Over every run the broker holds one copy per message, one more per duplicate and one less per ack; unacked are those delivered and not done with |
| `SagaSteps.AdministrationWrites` | services/product-service/internal/repository/product.go:305-363 | Creating a product stores that row, editing one writes details and active flag and no stock column |
| `SagaProgress.CallCanEnd` | services/order-service/internal/service/helper.go:218-253 | Wherever a call is, it can come to its end with nothing lost, releasing what it holds |
| `SagaProgress.CallCanSucceed` | services/order-service/internal/service/order.go:83-132 | A call with everything reserved can come to acceptance |
| `SagaProgress.ReservationCanGo` | services/product-service/internal/repository/product.go:498-543 | A reservation can be refused, and granted, with or without its reply, exactly if the product is active and has the stock |
| `SagaProgress.AnythingCanHappen` | services/order-service/internal/service/order.go:72-132 | Whatever else a call is about to do can go well, exactly under its guard, or fail, and its process can die |
| `SagaProgress.HandlerCanGoOn` | services/order-service/internal/messaging/consumer.go:92-249 | A handler run can update, publish any item not yet published, and break off at any time |
| `SagaProgress.BrokerCanMove` | pkg/rabbitmq/consumer.go:202-239 | The broker can deliver, redeliver and duplicate any message it has |
| `SagaProgress.MessageCanSettle` | services/product-service/internal/messaging/stock_release_consumer.go:44-139 | Over every run without republishing, each stock message can still be brought into the inbox |
| `SagaAgreement.StepAgrees` | services/order-service/internal/messaging/consumer.go:98-166 | A step breaks the agreement of handler messages and stored status exactly if a handler publishes while the other outcome's status is stored |
| `SagaAgreement.AgreesExactlyUnlessContradicted` | services/order-service/internal/messaging/consumer.go:92-249 | Over every run all handler messages for an order fit its stored status if and only if no handler ever published against it |
| `SagaAgreement.OneOutcomeAgrees` | services/order-service/internal/messaging/consumer.go:92-249 | In particular with one kind of outcome, over any redeliveries: confirm messages only for confirmed, payment_failed releases only for cancelled orders |
| `SagaAgreement.BothOutcomesDisagree` | services/order-service/internal/messaging/consumer.go:98-124 | With both outcomes delivered, a confirm message goes out for an order stored as cancelled |
| `OrderModel.Order.CalculateTotal` | services/order-service/internal/model/order.go:59-71 | Item by item: a zero subtotal of a positive quantity becomes price times quantity, everything else stays; returns the wrapped sum of all |
| `OrderModel.Order.Validate` | services/order-service/internal/model/order.go:74-107 | Accepts exactly a non-empty list of positive quantities and non-negative prices whose total matches |
| `OrderModel.FillTwice` | services/order-service/internal/model/order.go:62-68 | A second pass over the items changes nothing, wrap-around included |
| `OrderModel.TotalAgreesWithItself` | services/order-service/internal/model/order.go:99-104 | For every item list the total check accepts the total just computed |
| `OrderModel.TotalIsWrappedSum` | services/order-service/internal/model/order.go:59-71 | For every item list, wrapping at each addition gives the wrapped sum of the subtotals |
| `OrderModel.WrappedTotalIsWrappedSum` | services/order-service/internal/model/order.go:59-71 | Wrapping at every product and addition gives the wrapped true sum |
| `OrderModel.TotalExactlyWhenItFits` | services/order-service/internal/service/helper.go:152-162 | The stored total is the true sum of price times quantity if and only if that sum is below 2^63 |
| `OrderModel.TotalExactWithinBounds` | services/order-service/internal/service/helper.go:152-162 | So it is, with every subtotal exact, whenever n * max price * max quantity < 2^63 |
| `OrderModel.TotalCanWrapToZero` | services/order-service/internal/model/order.go:67-70 | Four items with exact subtotals whose total is stored as zero |
| `OrderRepository.FillColumns` | services/order-service/internal/repository/order.go:118-134 | Each of the five arrays holds, position by position, its column of the items, and only the order id of an item changes |
| `OrderRepository.IndexByProduct` | services/order-service/internal/repository/order.go:185-188 | The index knows every product and leads to an item of that product |
| `OrderRepository.Scatter` | services/order-service/internal/repository/order.go:190-226 | Every returned row reaches the item of its product; errors exactly for a broken row or an unknown product |
| `OrderRepository.NoItemMissed` | services/order-service/internal/repository/order.go:237-243 | As many distinct rows as items, each naming an item: every item has its row |
| `OrderRepository.AllScattered` | services/order-service/internal/repository/order.go:185-242 | After the scan each item carries its own order id and the id and subtotal of its own product's row, ids pairwise distinct |
| `OrderRepository.Repository.WithTx` | pkg/postgres/postgres.go:91-139 | Everything the callback stored stays, or none of it |
| `OrderRepository.Repository.Create` | services/order-service/internal/repository/order.go:64-249 | For every order of returned rows: the exact condition for success, the rows stored, the scatter complete; on any error nothing stored |
| `OrderRepository.Repository.UpdateStatus` | services/order-service/internal/repository/order.go:455-496 | Changes the status of a pending order and nothing else, and reports success exactly then |
| `CreateOrder.BuildOrderItems` | services/order-service/internal/service/helper.go:60-166 | Succeeds exactly for a well-formed request of available products, with one item per line; otherwise the error of the first check that fails, NotFound for a product not answered and InvalidInput for an inactive one |
| `CreateOrder.MapProducts` | services/order-service/internal/service/helper.go:111-129 | The product map answers as the last product with that id text |
| `CreateOrder.AnswerIsLast` | services/order-service/internal/service/helper.go:119-129 | The answer that counts for an id text is the last one given for it |
| `CreateOrder.AvailableExactly` | services/order-service/internal/service/helper.go:137-150 | A product is available exactly if it was answered and its last answer is active |
| `CreateOrder.BuiltAsAsked` | services/order-service/internal/service/helper.go:136-163 | Rows, announcement and total built from a request have, line by line, its product and quantity and the answered name and price; the total is the wrapped sum of quantity times price |
| `CreateOrder.StoresExactly` | services/order-service/internal/service/order.go:72-95 | When an order is stored, in terms of the request, the lookup and the faults alone |
| `CreateOrder.DistinctExactlyAsRequested` | services/order-service/migrations/000002_create_order_item_table.up.sql:28-29 | The unique constraint holds of the built items exactly when no two request lines mean the same product, however spelt |
| `CreateOrder.GeneratedSubtotalsAgree` | services/order-service/migrations/000002_create_order_item_table.up.sql:24-24 | The database's generated subtotals are the ones the service had computed |
| `CreateOrder.OrderService.ReserveItems` | services/order-service/internal/service/helper.go:176-211 | Reserves all, or stops at the first refusal having attempted a release for exactly the items before it |
| `CreateOrder.OrderService.CompensateReservations` | services/order-service/internal/service/helper.go:218-253 | Attempts one release for every held item, in order, whatever becomes of the earlier ones |
| `CreateOrder.OrderService.PublishOrderCreated` | services/order-service/internal/messaging/publisher.go:28-66 | The message carries the order's id, user, total and every item |
| `CreateOrder.OrderService.Persist` | services/order-service/internal/service/order.go:83-90 | Create never rejects the total computed just before; it fails exactly for a negative price, a constraint or a database fault |
| `CreateOrder.OrderService.Place` | services/order-service/internal/service/order.go:83-132 | From all items reserved: the exact rows, messages and releases, for each point of failure |
| `CreateOrder.OrderService.CreateOrder` | services/order-service/internal/service/order.go:39-133 | Field by field from the request and the lookup: the reservations are its lines up to the first refusal; a failing call attempts precisely one release for each of them, with the right reason, and leaves no row or a failed one; a successful call attempts none and stores and announces each line with its product, quantity, answered name and price, and the wrapped total; it succeeds exactly when nothing it depends on fails, and the errors otherwise |
| `CreateOrder.OrderService.Perform` | services/order-service/internal/service/order.go:39-133 | The steps of the call, against the functions the contract above is derived from |
| `PaymentOutcomes.PaymentEventConsumer.Handle` | services/order-service/internal/messaging/consumer.go:92-249 | Decides the status once; the i-th message has the outcome, and the product and quantity of the i-th item read; they go out up to the first failed publish, and nil is returned exactly when there is one for every item |
| `PaymentOutcomes.PaymentEventConsumer.PublishAll` | services/order-service/internal/messaging/consumer.go:144-166 | One message per item up to the first failed publish |
| `PaymentOutcomes.PaymentEventConsumer.DeliverUntilAcked` | pkg/rabbitmq/consumer.go:202-239 | Redelivery until nil, each delivery reading the items in its own order: acked exactly if some delivery is clean, the status it leaves, exactly which messages went out, and each is of that outcome for one of the items |
| `PaymentOutcomes.DecidedTwice` | services/order-service/internal/repository/order.go:463-490 | A status update that comes again changes nothing |
| `PaymentOutcomes.AckedMeansComplete` | services/order-service/internal/messaging/consumer.go:144-166 | Once acked, for every product and quantity the last messages hold as many of that outcome as the order has items; there are no others if and only if every earlier delivery published nothing |
| `PaymentOutcomes.AckedMessages` | services/order-service/internal/messaging/consumer.go:144-166 | The same as a sequence: the last messages are those of the items, in some order |
| `Payments.FailureCanBeStored` | services/payment-service/migrations/000001_create_payments_table.up.sql:17-27 | Marking a pending payment failed never breaks a constraint |
| `Payments.StatementsByColumns` | services/payment-service/internal/repository/payment.go:64-407 | Column by column what Create, UpdateFromPending and Update write; the first two leave authority and redirect alone |
| `Payments.TransitionsByTable` | services/payment-service/internal/model/payment.go:153-178 | The status changes there are: four from pending, one from completed |
| `Payments.MarksByFields` | services/payment-service/internal/model/payment.go:98-216 | Field by field what the Mark methods write to a pending payment, and that they leave any other alone |
| `Payments.PaymentService.VerifyPayment` | services/payment-service/internal/service/payment.go:203-309 | Only the row found changes, from pending, to completed with the gateway name and reference or to failed with a reason; at most one outcome is published, the one decided; the error cases, and that the payment returned is the stored row |
| `Payments.VerifyOne` | services/payment-service/internal/service/payment.go:214-308 | A settled payment is left alone and unannounced; an announced outcome equals the stored status exactly when it is a success or the write reached the database |
| `Payments.OneOutcome` | services/payment-service/internal/service/payment.go:214-308 | From any table, one call after the other: if the writes to a payment succeed, at most one outcome for it is published, and the stored status is that outcome's ever after |
| `Payments.LostWriteTwoOutcomes` | services/payment-service/internal/service/payment.go:226-242 | With one lost write a payment is announced failed and later completed |
| `PaymentFlow.InboxIsExact` | services/payment-service/internal/service/payment.go:78-127 | In every run an event id is in the inbox if and only if exactly one payment exists for it, with that event's order, user and positive amount |
| `PaymentFlow.AskedAndAnnouncedOnce` | services/payment-service/internal/service/payment.go:129-169 | Per payment at most one gateway request and at most one payment.failed from this path |
| `PaymentFlow.AckedExactly` | services/payment-service/internal/messaging/order_created_consumer.go:34-81 | A delivery of order.created is acked at once exactly if it names no order, or the database answers and its payment exists; it goes on exactly if it inserts that payment |
| `PaymentFlow.ZeroTotalIsNeverHandled` | services/payment-service/internal/model/payment.go:122-150 | An order.created without a positive total gets an error, hence a requeue, at every delivery of every run, and never a payment |
| `PaymentLabels.EventsByLabels` | services/order-service/internal/messaging/publisher.go:28-66 | The events there are to handle are those published, in order |
| `PaymentLabels.AskedOnceByLabels` | services/payment-service/internal/service/payment.go:129-137 | In every run the gateway is asked at most once for a payment |
| `PaymentLabels.FailureIsSaved` | services/payment-service/internal/repository/payment.go:286-347 | A refused payment can always be stored as failed |
| `PaymentLabels.FailedExactlyWhenSaved` | services/payment-service/internal/service/payment.go:140-152 | A payment is stored as failed exactly if the gateway refused it and its worker's UPDATE then reached the database |
| `PaymentLabels.AnnouncedFailureIsStored` | services/payment-service/internal/service/payment.go:149-160 | payment.failed is out exactly if the worker's publish succeeded, only after a refusal, and beside a stored `failed` if its UPDATE reached the database |
| `PaymentLabels.OneActivePerOrder` | services/payment-service/internal/repository/payment.go:64-135 | In every run no order has two payments that are pending or completed |
| `PaymentLabels.AnythingCanHappen` | services/payment-service/internal/service/payment.go:68-309 | Each thing a worker or a callback is about to do can go well or fail, and either can break off at any time |
| `PaymentLabels.FinishedIsOver` | services/payment-service/internal/service/payment.go:129-200 | A worker that has crashed or returned asks, saves and announces nothing any more |
| `PaymentLabels.DoneIsOver` | services/payment-service/internal/service/payment.go:203-309 | Nor does a callback that is done |
| `PaymentLabels.CrashAndAbandonEnd` | services/payment-service/internal/service/payment.go:129-309 | Crash and announcement end a worker, abandonment and publish a callback |
| `PaymentFlow.NoPaymentEverCompletes` | services/payment-service/internal/repository/payment.go:286-347 | From an empty table no run stores an authority, so no callback finds a payment, every payment is pending or failed, and payment.completed is never published |
| `PaymentFlow.UninterruptedCallback` | services/payment-service/internal/service/payment.go:203-309 | The steps of a callback nobody interrupts do what the one-call function says |
| `CallbackOutcomes.StepSettles` | services/payment-service/internal/repository/payment.go:364-376 | Whatever step is taken, a payment has one outcome at most, the stored one, exactly if it had before and the step is not an announcing Update of a row no longer pending or a failure that is not saved |
| `CallbackOutcomes.SettledMeansOne` | services/payment-service/internal/service/payment.go:214-308 | Then callbacks have published at most one outcome for it, and the stored status is that outcome's |
| `CallbackOutcomes.OneOutcomeExactlyWhenGuarded` | services/payment-service/internal/repository/payment.go:350-407 | Over every run, with all other payments, workers and events interleaved: one outcome and agreement if and only if no callback ever announced without the guard Update lacks |
| `OrderlyCallbacks.OneOutcomeWithoutOverlap` | services/payment-service/internal/service/payment.go:203-309 | From any table, if callbacks for one payment do not overlap each other and their writes succeed, they publish at most one outcome for it and the stored status is that outcome's ever after |
| `OrderlyCallbacks.OverlappingCallbacksDisagree` | services/payment-service/internal/repository/payment.go:350-407 | From a stored table, a run in which two overlapping callbacks announce one payment both failed and completed |
| `EndToEnd.NothingIsEverSold` | services/payment-service/internal/service/payment.go:172-191 | Both services together from an empty payments table: no order is ever confirmed and no product's total stock ever changes |
| `EndToEnd.OutcomesAreForPlacedOrders` | services/payment-service/internal/service/payment.go:87-169 | Every published outcome is for an accepted order |
| `EndToEnd.OneOutcomePerOrder` | services/payment-service/internal/service/payment.go:87-169 | At most one outcome is ever published per order |
| `JointRuns.OutcomesCanBeHeard` | services/order-service/internal/messaging/consumer.go:26-90 | Every published outcome can be delivered, at once and again |
| `JointRuns.ShopAlone` | services/order-service/internal/messaging/consumer.go:26-90 | What the shop does in a joint run, with each outcome it hears, is a run of the saga |
| `JointRuns.BankAlone` | services/payment-service/internal/messaging/order_created_consumer.go:34-81 | What the bank does in a joint run, with each order placed, is a run of Payment Service |
| `Payments.AwaitingIsRefused` | services/payment-service/migrations/000001_create_payments_table.up.sql:17-27 | Saving `awaiting` always fails |
| `StuckPayments.AcceptedPaymentIsStuck` | services/payment-service/internal/service/payment.go:172-191 | Once the gateway has accepted a payment request, in every continuation the payment and its order stay pending, no outcome is published, and every item stays reserved and unmessaged |
| `CacheKeys.DigitsRoundTrip` | services/product-service/internal/cache/store.go:42-55 | Reading back the decimal text of a limit or offset gives the number |
| `CacheKeys.SearchKeysCollide` | pkg/cache/key.go:22-35 | Two searches share a key if and only if limit, offset and the joined text of category and query agree |
| `CacheKeys.SearchKeyInjective` | services/product-service/internal/cache/store.go:42-55 | For categories free of `:`, equal keys mean equal arguments |
| `CacheKeys.ColonInCategoryCollides` | pkg/cache/key.go:34-34 | Two different searches with one key, one of them with a category free of `:` |
| `CacheKeys.SpoilsExactlyWithColon` | services/product-service/internal/cache/store.go:42-55 | A search can take the place of one whose category is free of `:` if and only if its own contains `:` |
| `CacheKeys.ProductKeyInjective` | services/product-service/internal/cache/store.go:35-37 | Equal product keys mean equal products |
| `CacheKeys.KeySpacesDisjoint` | services/product-service/internal/cache/store.go:35-55 | No search key is a product key |
| `ProductCache.FillProduct` | services/product-service/internal/cache/store.go:81-95 | Caching a row that was just read keeps every cached product equal to its row |
| `ProductCache.FillSearch` | services/product-service/internal/cache/store.go:126-139 | Caching an answer, for any category, keeps every cached answer one that raw search gave for arguments with that key |
| `ProductCache.AloneWithoutColons` | services/product-service/internal/cache/product.go:168-217 | If no search ever made has `:` in its category, none shares its key with another |
| `ProductCache.InvalidationIsWhatIsNeeded` | services/product-service/internal/cache/store.go:97-105 | After a write to one row, dropping its key restores agreement; keeping it does exactly when the row was not cached (of the modelled columns) |
| `ProductCache.MergeIsComplete` | services/product-service/internal/cache/product.go:82-126 | Cache hits and the active rows of the missing ids make up the active rows of all ids |
| `ProductCache.ProductService.CacheGet` | services/product-service/internal/cache/store.go:58-79 | A hit exactly for a readable key that holds a product |
| `ProductCache.ProductService.CacheSet` | services/product-service/internal/cache/store.go:81-95 | Stores the product under its key, or nothing if the write fails |
| `ProductCache.ProductService.GetByID` | services/product-service/internal/cache/product.go:45-71 | Answers what raw GetByID answers, caches what it found, and keeps the cache in agreement |
| `ProductCache.ProductService.RawGetByIDs` | services/product-service/internal/repository/product.go:232-302 | The active rows among the ids, each once |
| `ProductCache.ProductService.GetByIDs` | services/product-service/internal/cache/product.go:74-127 | Everything returned is the present row of an id asked for, and the active ones are, as a set, exactly raw GetByIDs |
| `ProductCache.ProductService.Search` | services/product-service/internal/cache/product.go:168-217 | For every category: an answer is one raw search gave for arguments with the same key, and for these very arguments if no other search ever made has that key; the exact answer and cache |
| `ProductCache.SecondSearch` | services/product-service/internal/cache/product.go:168-217 | A search made while another's answer is cached is given that answer if and only if they share a key |
| `ProductCache.SpoiledSearch` | services/product-service/internal/cache/product.go:168-217 | After any search with `:` in its category, some search without is given its answer, whatever its own would be |
| `ProductCache.ProductService.Commit` | services/product-service/internal/cache/product.go:131-164 | After a write the cache agrees if the delete succeeds; if it fails, exactly when no modelled column changed or the row was not cached |
| `ProductCache.ProductService.Update` | services/product-service/internal/cache/product.go:131-148 | Raw Update's effect and error, with the cache in agreement |
| `ProductCache.ProductService.Delete` | services/product-service/internal/cache/product.go:151-164 | Raw Delete's effect and error, with the cache in agreement |
| `ProductCache.ProductService.ReserveStock` | services/product-service/internal/cache/product.go:223-237 | Raw ReserveStock's effect and error, with the cache in agreement |
| `ProductCache.ProductService.ReleaseStock` | services/product-service/internal/cache/product.go:240-254 | Raw ReleaseStock's effect and error, with the cache in agreement |
| `ProductCache.ProductService.ConfirmStock` | services/product-service/internal/cache/product.go:257-272 | Raw ConfirmStock's effect and error, with the cache in agreement |
| `ProductCache.ProductService.MarkProcessed` | services/product-service/internal/repository/event.go:36-77 | Reports whether the event id was there, and leaves it there |
| `ProductCache.ProductService.InTransaction` | pkg/postgres/postgres.go:91-139 | Inbox insert and stock statement together, or neither; only the event's product changes |
| `ProductCache.ProductService.Handle` | services/product-service/internal/messaging/stock_release_consumer.go:44-139 | nil exactly for a malformed body or a committed transaction; the database is the delivery's closed form, an error changes nothing, and the cache agrees afterwards |
| `ProductCache.ProductService.Expire` | pkg/cache/cache.go:103-152 | Keys may vanish at any time without harm |
| `CacheStaleness.BoundedStaleness` | services/product-service/internal/cache/product.go:45-127 | In every interleaving, even with failed invalidations, every product returned is a value its row had, less than the TTL plus the filling reader's own delay ago |
| `CacheCurrency.StaleExactlyWhenOvertaken` | services/product-service/internal/cache/product.go:45-71 | Over every run an answer is stale if and only if a commit lies after the read it came from and the newest one at the time has another value |
| `CacheCurrency.CurrentExactlyUnlessLate` | services/product-service/internal/cache/product.go:45-164 | If each commit to a row is followed by a drop of its key before the next hit, all answers about it are current if and only if no reader came back with a row changed since it had read it |
| `CacheCurrency.HitsAreCurrent` | services/product-service/internal/cache/product.go:45-164 | Then every cache hit is current if no such late row was stored |
| `CacheCurrency.HitAfterFill` | services/product-service/internal/cache/store.go:81-95 | The hit that follows a stored row is stale if and only if that row was late |
| `CacheStaleness.StaleAfterInvalidation` | services/product-service/internal/cache/product.go:45-71 | A run in which an old row is served although the writer's invalidation succeeded |
| `RefreshTokens.RotationIsLinear` | services/user-service/internal/service/user.go:345-419 | In every interleaving each session has at most one of an unrevoked row and a refresh between revoke and issue; no token has two successors, an unrevoked one none |
| `RefreshTokens.AtMostOneLiveRow` | services/user-service/internal/repository/refresh_token.go:189-232 | Two rows of one session are never both unrevoked, and no two rows replace the same one |
| `RefreshTokens.RevokedForever` | services/user-service/internal/model/user.go:62-66 | A revoked row never becomes valid again |
| `RefreshTokens.ExchangedBeforeExpiry` | services/user-service/internal/service/user.go:387-392 | Every row issued in exchange for another came from a look at that one strictly before it expired |
| `RefreshLabels.LookStartsExactly` | services/user-service/internal/model/user.go:62-65 | A look starts a call exactly for a logout, or for a row neither revoked nor expired |
| `RefreshLabels.RefreshedExactlyWhenValid` | services/user-service/internal/service/user.go:345-419 | Over every run a row is refreshed exactly if somebody looked it up while it was neither revoked nor expired |
| `RefreshLabels.RevokedExactly` | services/user-service/internal/repository/refresh_token.go:189-232 | A row is revoked exactly if some call's UPDATE on it reached the database |
| `RefreshLabels.LoginWorks` | services/user-service/internal/service/helper.go:19-58 | A login gives an unrevoked row of a new session, valid for its time |
| `RefreshLabels.LoginLastsItsTime` | services/user-service/internal/model/user.go:62-65 | Over every run the row of a login stays valid exactly until its time is over or somebody revokes it |
| `RefreshLabels.RefreshWorks` | services/user-service/internal/service/user.go:345-419 | An uninterrupted refresh of a valid row revokes it and issues its successor in the same session |
| `RefreshLabels.LogoutWorks` | services/user-service/internal/service/user.go:476-506 | An uninterrupted logout revokes the row and issues nothing |
| `RefreshLabels.OverIsOver` | services/user-service/internal/service/user.go:345-419 | A call that is over revokes and issues nothing any more |
| `RefreshLabels.QuitAndIssueEnd` | services/user-service/internal/service/user.go:394-410 | Issuing and failing end a call; only a successful issue adds a row |
| `OneTimeCodes.DeleteUses` | services/user-service/internal/repository/otp.go:196-231 | A delete can only pass the challenge on to the one verifier that is told it succeeded |
| `OneTimeCodes.UsedAtMostOnce` | services/user-service/internal/service/user.go:260-342 | In every interleaving (challenge stored) + (verifiers past the delete) + (token pairs issued) is at most 1, and only a caller with the stored code is counted |
| `OneTimeCodes.StoredExactlyUntilRemoved` | services/user-service/internal/repository/otp.go:60-137 | Over every run a challenge is stored, with its code, exactly if it was created and nothing has removed it |
| `OneTimeCodes.MatchesExactly` | services/user-service/internal/service/user.go:296-316 | A verification goes on exactly if the challenge is stored and the code is the stored one |
| `OneTimeCodes.PassesExactly` | services/user-service/internal/repository/otp.go:196-231 | A verifier gets past its delete exactly if the challenge was there and the reply says so |
| `OneTimeCodes.RightCodeLogsIn` | services/user-service/internal/service/user.go:260-342 | Whoever knows the code of a stored challenge, uninterrupted, gets a token pair and uses the challenge up |

## Left out

- gRPC, HTTP, authentication plumbing, configuration, logging and server life cycle: they carry no state of their own.
- The ZarinPal client: its replies are parameters of the steps.
- Exchange and queue wiring, publisher confirms and the consumer's reconnect logic: messages go to the handler of their routing key.
- Cryptography, token hashing, JWT and random codes: tokens and ids are distinct by construction.
- JSON: a body is malformed or decodes to the event it was made from.
- Product search ranking and SQL ILIKE: an answer of raw search is a parameter.
- The inbox purge procedure: it removes the evidence the inbox theorems rest on.
- Rate limiting and DeleteByPrefix: their guarantees are a library's and Redis SCAN's.
- Error texts, HTTP and gRPC status mapping, timestamps: small tables and columns nothing modelled reads.
- Product creation through the cache, order listing, user registration and password login: easy members only.
- MarkExpired: nothing calls it.
- Payment currency, payment event metadata and the redirect page: stored, and read by nothing modelled.
- An unknown commit result: `WithTx` returning an error although the server committed is not modelled.
- HandleOrderCreated, the refresh-token and the one-time-code calls are modelled as steps over values, not as classes: their properties are about overlapping calls, and each step is one statement.
- CreateOrder.OrderService.CreateOrder: does not relate two overlapping calls; the saga model does, with the same steps.
- ProductCache.InvalidationIsWhatIsNeeded: does not model `updated_at`, so an update that writes the same details counts as no change.
- ProductCache.ProductService.Commit: does not model `updated_at` either.
