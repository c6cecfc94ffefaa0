# A verified model of the order management system

This project models the parts of the order management system in which correctness depends on
interleaving, partial failure or arithmetic at the edges, and proves what they promise. Every proof
is checked by `dafny verify dfyconfig.toml`.

**The order saga.** Order-service runs Create, Pay, Cancel, the timeout's cancellation and Finish as
compare-and-set status updates around remote calls to inventory-service; reconciliation workers
repair the orders that were left half done. `Saga` is a step system over both databases, the network
and a program counter for every operation in flight. Each local transaction is one step. A request
may be lost, delayed and applied any number of times, a reply may be lost, any call may report an
error whatever became of it, and a process may die between any two steps. `SagaInvariant` and
`SagaSteps` prove one inductive invariant of that system, `SagaTheorems` draws the promises about
orders and stock from it, `SagaProgress` shows what operations without faults achieve from any
reachable state, `SagaStranded` which orders nothing repairs, `SagaLeaks` what becomes of the stock of
failed orders, and `SagaService` gives the services as imperative code, with every other process at
work between any two statements, and shows that it takes only steps of the system and why it answers as it
does. `SagaWorld` says what such an operation can find, and what it achieves if nothing happens meanwhile but
that its own requests are delivered.

**Stock.** `Ledger` gives the meaning of the transactions of inventory-service, `LedgerProof` their
conservation laws, `Store` the transactions as loops over rows with rollback, `Locks` the order in
which they lock rows, and `Items` the merging and pricing of requests with its int64 arithmetic.

**Leased workers and the publisher.** `Leases` is the claim protocol shared by the timeout outbox and
the reconciliation tasks, `Publisher` the sessions that publish outbox rows and read confirmations
without looking at delivery tags, and `Outbox` one pass of the timeout worker, with other workers at
work between any two of its statements.

**Resilience.** `Limiter`, `LimiterProof`, `LimiterMemory` and `LimiterBound` are the two-level token
bucket that forgets idle clients, `Breaker` the circuit breaker, `Retry` the doubling delay and the retry loop.

**The older order service** is in `Monolith`, `MonolithProof` and `MonolithService`, and **the metrics
registry** in `Metrics`. `Sorting` and `Wrappers` are shared.

Conventions. Operations are functions on values where the proofs need them, and methods with loops
and classes with fields where the source updates things in place; each such method is proved against
its function, and with it what a caller may rely on. Clocks, random identifiers, the network, faults and
the interference of other processes are parameters or steps over which every theorem quantifies. Times are
integers, tokens are reals, and quantities are integers, wrapped to 64 bits where the source does not guard
an addition.

The tables are those of `migrations/`, with their unique keys, CHECK constraints and trigger: a statement
that violates one fails, and its transaction changes nothing. Reconciliation tasks
are inserted by the trigger in `migrations/ordering/00003_reconciliation_tasks.sql`; since nothing
keeps other writers from that table, the model also lets anybody add tasks with any action.
`SagaStranded.StrayTaskStrands` shows where that matters, and a theorem that needs the trigger to be the
only source says so.

Some promises do not hold of the code; for these there is a run or an input that breaks them and the
exact condition under which they hold: an order whose process died (`SagaStranded.StrandedIffOwnerless`),
a reconciliation that no task can bring about (`SagaStranded.RepairableIff`), the stock of a failed order
(`SagaLeaks.FailedLeaksIff`), a request that sums to zero in int64 (`Items.PanicIff`), the total of an order
of the older service (`MonolithProof.TotalWraps`) and its lock order (`Locks.OlderServiceDeadlocksIff`), the
rate of a single client (`LimiterBound.ClientsKeptIffLasting`) and the limit on probes
(`Breaker.ProbeLimitHoldsIffOne`).

## Model

| member | source | states |
|---|---|---|
| `SagaTheorems.OrderAndStockAgree` | internal/ordersvc/order.go:117-377 | In every reachable state a Paid or Finished order has Confirmed stock, a Cancelled one Released stock, a Failed order's stock is never Confirmed, an order that can still be settled has its reservation stored, and a stored reservation holds exactly the order's lines. |
| `SagaTheorems.SagaConservesStock` | internal/inventorysvc/inventory.go:111-299 | All conservation laws of the ledger hold in every reachable state of the whole system. |
| `SagaTheorems.OneOrderPerKey` | internal/ordersvc/order.go:129-163 | Two orders with the same user and idempotency key are the same order. |
| `SagaTheorems.OwnerFindsItsStatus` | internal/ordersvc/order.go:174-205 | An order in a transient status belongs to at most one live operation, which finds exactly the status it left, so its closing compare-and-set cannot miss. |
| `SagaTheorems.LifeCycle` | internal/ordersvc/order.go:269-308 | Every step moves every order along the life cycle only, and out of a transient status only by the operation that owns the order, so the unconditional writes replace nothing but their owner's own transient status. |
| `SagaTheorems.EndedForEver` | internal/ordersvc/order.go:257-377 | Over any further run a closed order keeps its status, except that Paid may become Finished. |
| `SagaTheorems.TimeoutRowIsClosed` | internal/ordersvc/order.go:288-302 | Every order that can still be settled has its timeout row, and the transaction that ends it as Paid or Cancelled, by its own operation or by a repair, leaves that row closed. |
| `SagaTheorems.CompletedByItsOwner` | internal/ordersvc/reconciliation_worker.go:302-351 | A task becomes completed only in the transaction of the worker that holds its lease, and that transaction leaves the order in the status its action aims at. |
| `SagaTheorems.TaskSettledForEver` | internal/ordersvc/reconciliation_worker.go:217-351 | Completed and unresolved tasks never change again, and a completed task's order keeps the target status, except that Paid may become Finished. |
| `SagaTheorems.RepairIsAssigned` | migrations/ordering/00003_reconciliation_tasks.sql:22-68 | Every order that asks for reconciliation has a supported task; if the trigger alone creates tasks it is still open and its action fits what became of the stock. |
| `SagaTheorems.ReachableInv` | internal/ordersvc/order.go:117-377 | The inductive invariant of the saga holds in every reachable state. |
| `SagaSteps.StepInv` | internal/ordersvc/order.go:117-377 | Every step of every actor keeps the invariant. |
| `SagaSteps.DeliverInv` | internal/inventorysvc/inventory.go:161-299 | Applying a request once more, however late, keeps the invariant. |
| `SagaProgress.FaultFreeSettle` | internal/ordersvc/order.go:257-364 | From any reachable state a fault-free Pay or Cancel of a pending order ends in Paid or Cancelled if the reservation is held or settled that way, and in Pending if it is settled the other way. |
| `SagaProgress.PendingIsNeverStuck` | internal/inventorysvc/inventory.go:249-255 | A pending order can always be ended: by Pay and by Cancel while its stock is held, and by exactly one of them once it has settled. |
| `SagaProgress.FaultFreeRepair` | internal/ordersvc/reconciliation_worker.go:217-351 | From any reachable state, whoever added the tasks, one fault-free pass over a claimable supported task of an order waiting for it completes the task and brings the order to its target if the stock can still be settled that way, and otherwise leaves the task failed and the order waiting. |
| `SagaProgress.TriggeredRepairSucceeds` | migrations/ordering/00003_reconciliation_tasks.sql:22-68 | If the trigger alone creates tasks, every such pass succeeds. |
| `SagaStranded.StrandedIffOwnerless` | internal/ordersvc/order.go:269-362 | An order in Reserving, Paying or Cancelling keeps that status over every further run if and only if no live operation owns it now. |
| `SagaStranded.CrashStrands` | internal/ordersvc/order.go:269-362 | When the process of an operation dies between its statements, the order it owned keeps its transient status for ever. |
| `SagaStranded.RepairableIff` | internal/ordersvc/reconciliation_worker.go:217-351 | An order waiting for reconciliation can leave that status without a further task if and only if one of its tasks is open, supported and asks for what can still become of the stock. |
| `SagaStranded.StrayTaskStrands` | migrations/ordering/00003_reconciliation_tasks.sql:22-68 | A task that was added by hand and given up makes the trigger skip its own: a payment that then asks for reconciliation waits for ever unless a further task is added. |
| `SagaStranded.StrandedOrderExists` | migrations/ordering/00003_reconciliation_tasks.sql:22-68 | Such a state is reachable from the empty system. |
| `SagaLeaks.FailedKeepsItsStock` | internal/ordersvc/reconciliation_worker.go:263-274 | The stock of a failed order that is held stays held over every further run: no request to confirm or release it is under way, none is ever sent, and a repair takes the order for done. |
| `SagaLeaks.FailedLeaksIff` | internal/ordersvc/order.go:165-172 | An order that has failed can come to hold stock for ever, by a request to reserve that arrives late if not already, if and only if its stock has not been released. |
| `SagaLeaks.HeldIsUnasked` | internal/ordersvc/order.go:194-210 | In no reachable state has anybody asked for the stock of a failed order unless that stock is released. |
| `SagaLeaks.LeakExists` | internal/ordersvc/order.go:165-172 | Such an order is reached from the empty system: the reply to its reservation is lost. |
| `SagaService.Deployment.Settle` | internal/ordersvc/order.go:257-364 | Pay and Cancel with anything happening between their statements and any of them failing, the first load and the last read included. What is found decides the answer: not pending at the first compare-and-set is an invalid state; without a grant of its own request at inventory-service, or without the reply, the call has failed and the order is pending again; only a failed closing transaction asks for reconciliation, and the stock is then settled; everything else succeeds, with the final status and settled stock. If nothing fails and its request is delivered, a pending order is settled exactly if its stock is held or settled that way. |
| `SagaService.Deployment.TimeoutCancel` | internal/ordersvc/order.go:249-255 | The timeout acknowledges exactly an order that is missing, not pending or cancelled by it; success means Cancelled and Released, and comes, if nothing fails, exactly when the stock can be released. |
| `SagaWorld.CourierSettles` | internal/ordersvc/order.go:257-364 | If nothing fails and only its request is delivered, a Pay or Cancel finds the order still pending, and its request granted exactly if the stock can be settled that way. |
| `SagaWorld.GrantedIffGrantable` | internal/inventorysvc/inventory.go:235-299 | A request to confirm or release is granted by its delivery exactly if the stock is held or settled that way. |
| `SagaService.Deployment.Finish` | internal/ordersvc/order.go:366-377 | Finish takes effect exactly on the user's own Paid order, whose stock is confirmed, and leaves everything alone otherwise. |
| `SagaService.Deployment.FindByKey` | internal/ordersvc/order.go:379-388 | The lookup finds the order under a key if and only if there is one. |
| `SagaService.Deployment.Create` | internal/ordersvc/order.go:117-213 | Create, for any request whatever its sums. What is found decides the answer: an unusable user or key and a request that cannot be priced are invalid, a key in use answers with its order, before and at the insert, and once inserted the order fails exactly if its own request has no grant or the reply is missing. A new order consists of the merged items and has its stock stored. If nothing fails and the requests are delivered, a new request that can be priced creates its order, with the stock held, exactly if its lines can be served. |
| `SagaService.Deployment.UndoReservation` | internal/ordersvc/order.go:194-210 | The compensation succeeds exactly if its release was granted and the reply arrives, and leaves the order Failed with released stock; otherwise it asks for reconciliation. |
| `SagaWorld.CourierCreates` | internal/ordersvc/order.go:165-213 | If nothing fails and only its requests are delivered, a Create that reaches its insert succeeds exactly if its lines can be served, and its stock is then held. |
| `SagaWorld.ReservedIffServable` | internal/inventorysvc/inventory.go:161-225 | A request to reserve that has not been granted is granted by its delivery exactly if its lines can be served. |
| `SagaService.Deployment.ProcessTask` | internal/ordersvc/reconciliation_worker.go:217-261 | What is found decides how the task ends: given up only if it does not fit its order, left for the retry time if the load, the request or the transaction fails or the request is not granted, lost if somebody else holds the lease, and otherwise closed with the order at the action's target. If nothing fails and its request is delivered, it is closed exactly if the order has reached the target, or waits and has stock that can be settled that way. |
| `SagaService.Deployment.CommitTask` | internal/ordersvc/reconciliation_worker.go:302-351 | The closing transaction takes effect if and only if there is no fault, the order fits and the worker owns the lease. |
| `SagaWorld.CourierRepairs` | internal/ordersvc/reconciliation_worker.go:217-351 | If nothing fails and only its request is delivered, a worker gives up a task that does not fit, leaves one whose stock was settled the other way with its order still waiting, and closes every other. |
| `SagaService.MarksTask` | internal/ordersvc/reconciliation_worker.go:353-407 | A mark takes effect exactly for the owner of the lease, which it gives up. |
| `LedgerProof.StockConserved` | internal/inventorysvc/inventory.go:111-299 | After any sequence of requests, whatever they ask for, for every product: reserved is the sum over held reservations, available plus reserved plus confirmed is all stock ever put in, both counters are non-negative, available is the sum of the logs other than confirmations, and every line has moved once per stage. |
| `LedgerProof.StockIsWhatWasPutIn` | internal/inventorysvc/inventory.go:111-299 | After any sequence of requests, available plus reserved plus confirmed of a product is the sum of what the granted Init and Add requests asked to put in, read off the requests and not the logs. |
| `LedgerProof.ReserveValid` | internal/inventorysvc/inventory.go:161-225 | Reserve keeps all ledger laws, whatever it is asked for. |
| `LedgerProof.RefusedByTablesIff` | migrations/inventory/00001_inventory.sql:9-35 | A request that passes every guard of Reserve is refused by the CHECK constraints, without any change, exactly if some int64 sum of its quantities is not positive, which takes an overflow; otherwise it is granted. |
| `LedgerProof.WrappedReserveIsRefused` | internal/inventorysvc/inventory.go:337-342 | Two well-formed lines of any stocked product pass every guard of Reserve, sum to a negative quantity, and are refused by the tables. |
| `LedgerProof.StoredQuantitiesArePositive` | migrations/inventory/00001_inventory.sql:35 | After any sequence of requests every stored quantity is positive. |
| `LedgerProof.UncheckedIsLawfulIff` | migrations/inventory/00001_inventory.sql:9-12 | What the constraints protect against: without them the transaction would keep the ledger laws if and only if reserved plus quantity stays non-negative for each merged line. |
| `LedgerProof.UncheckedIsSafeIff` | migrations/inventory/00001_inventory.sql:35 | And without them the laws and the guard of every later transition would hold whatever follows if and only if no merged sum is negative: a negative one that passes for now is unravelled by confirming the other reservations. |
| `LedgerProof.TransitionValid` | internal/inventorysvc/inventory.go:235-299 | Confirm and Release keep all ledger laws. |
| `LedgerProof.GuardNeverFails` | internal/inventorysvc/inventory.go:264-287 | The reserved-quantity guard of a transition never fails. |
| `LedgerProof.HeldCanBeSettled` | internal/inventorysvc/inventory.go:264-287 | After any sequence of requests a held reservation can be confirmed and can be released. |
| `LedgerProof.CountersFit` | migrations/inventory/00001_inventory.sql:2-9 | As long as the sum of what was asked to be put in of a product fits in a BIGINT, so do its counters and every quantity reserved or confirmed of it. |
| `LedgerProof.SettledForEver` | internal/inventorysvc/inventory.go:249-255 | Once confirmed or released a reservation stays so over any further sequence of requests: the two exclude each other. |
| `LedgerProof.RepeatsChangeNothing` | internal/inventorysvc/inventory.go:172-180 | A request that was granted once is granted for ever after with the same answer and without any change, whatever has been requested in between. |
| `Store.HoldLines` | internal/inventorysvc/inventory.go:186-217 | The reserving loop changes the rows line by line as the ledger says, or stops at the first line that cannot be held or that the constraints refuse. |
| `Store.SettleLines` | internal/inventorysvc/inventory.go:257-290 | The settling loop changes the rows line by line as the ledger says, or stops at the first guard that fails. |
| `Store.Database.InitStock` | internal/inventorysvc/inventory.go:111-130 | Init succeeds exactly for a positive product identifier without a row and a quantity that is not negative; the row then holds that quantity and nothing reserved, and no other row changes, nor any if it is refused; it equals its ledger transaction and keeps the ledger laws. |
| `Store.Database.AddStock` | internal/inventorysvc/inventory.go:132-159 | Add succeeds exactly for a positive product identifier with a row and a positive quantity, which it adds to that row's available stock and to nothing else; a refusal changes nothing; it equals its ledger transaction and keeps the ledger laws. |
| `Store.Database.ReserveStock` | internal/inventorysvc/inventory.go:161-225 | Reserve as written, loop, early returns, constraint errors and rollback included, equals its ledger transaction and keeps all ledger laws whatever is asked for; a granted order has its reservation on file, and a refused request leaves every table unchanged. |
| `Store.Database.TransitionTo` | internal/inventorysvc/inventory.go:235-299 | The transition as written equals its ledger transaction; on lawful tables it is granted exactly to a reservation that is held or settled that way, which it leaves settled that way, and keeps the tables lawful. |
| `Store.Database.Confirm` | internal/inventorysvc/inventory.go:227-229 | Confirm is granted exactly to a held or confirmed reservation and leaves it confirmed, with the laws kept. |
| `Store.Database.Release` | internal/inventorysvc/inventory.go:231-233 | Release is granted exactly to a held or released reservation and leaves it released, with the laws kept. |
| `Locks.PlansRise` | internal/inventorysvc/inventory.go:186-193 | Every transaction takes its row locks in strictly ascending order. |
| `Locks.NoDeadlock` | internal/inventorysvc/inventory.go:257-263 | After any run of any number of concurrent transactions, some unfinished one can take its next lock or commit. |
| `Locks.AllCanCommit` | internal/inventorysvc/inventory.go:186-193 | From every such state all transactions under way can be brought to commit without any rollback. |
| `Locks.DeadlockIffCrossed` | internal/service/order_service.go:89-101 | Two transactions with any plans can come to wait for each other if and only if the plans cross: each begins with disjoint locks and then asks for one the other has. |
| `Locks.OlderServiceDeadlocksIff` | internal/service/order_service.go:85-149 | Two orders placed under different new keys with the older service, which locks in request order, can deadlock if and only if the items whose rows they lock cross: none if a product repeats, otherwise those up to the first item that ends the request, and all items of a request that can be served. |
| `Locks.OppositeOrdersDeadlock` | internal/service/order_service.go:89-101 | Two orders that can be served and name the same two products in opposite orders can deadlock. |
| `Items.MergeItems` | internal/inventorysvc/inventory.go:332-350 | The map-and-sort merge lists each product once in ascending order with its wrapped sum, whatever the iteration order of the map. |
| `Items.NormalizeItems` | internal/inventorysvc/inventory.go:332-350 | Refuses exactly the empty, oversized and non-positive requests, and otherwise merges. |
| `Items.MergesUnique` | internal/inventorysvc/inventory.go:332-350 | There is one merged list for a request, so both services agree on it. |
| `Items.MergedExactIffFits` | internal/ordersvc/order.go:394-400 | The merged quantities are the true sums if and only if no sum overflows int64. |
| `Items.ResolvedLinesSurvive` | internal/inventorysvc/inventory.go:332-350 | If no sum overflows, inventory-service normalises the resolved lines to themselves. |
| `Items.PriceLines` | internal/ordersvc/order.go:407-431 | The pricing loop with its overflow guard has one answer: resolved with the exact total if every line is sellable and positive and the total stays within int64, and otherwise the fault of the first line that is not, the division by zero included. |
| `Items.ResolveItems` | internal/ordersvc/order.go:390-432 | An order is resolved exactly if its merged lines can be priced, for their exact price, whatever has wrapped; the guard divides by zero exactly if it reaches a sum of zero; and if the sums fit, the lines are the true sums and the amount is refused exactly when the price exceeds 2^63-1. |
| `Items.PanicIff` | internal/ordersvc/order.go:407-431 | Pricing divides by zero exactly if some sellable line sums to zero and all lines before it can be priced, and succeeds exactly if all can. |
| `Items.PricedLinesAreSound` | internal/ordersvc/order.go:407-431 | Whatever can be priced has positive sums within int64, so inventory-service takes it as it is, also when sums have wrapped. |
| `Items.ResolvedIsStorable` | migrations/ordering/00001_ordering.sql:17-32 | An order that was resolved meets the CHECK constraints of the order tables, so its insert is not refused by them. |
| `Items.WrappedSumPanics` | internal/ordersvc/order.go:418-420 | Four well-formed lines of a sellable product can sum to zero in int64, on which the amount guard divides by zero; with a fifth they are taken for an order of one. |
| `Leases.OneHolder` | internal/ordersvc/worker.go:272-316 | After any run two workers never hold unexpired claims on one row. |
| `Leases.StaleWritesChangeNothing` | internal/ordersvc/worker.go:318-352 | While one worker holds a claim, nothing another worker remembers of the row lets it write there. |
| `Leases.StaleForGood` | internal/ordersvc/worker.go:422-440 | Once another has claimed the row, a stale worker's marks and releases stay without effect for ever, unless it claims the row afresh. |
| `Leases.NeverStranded` | internal/ordersvc/reconciliation_worker.go:179-215 | Whatever crashed, a pending or failed row can be claimed again once lease and retry times have passed. |
| `Leases.NotBeforeItsTime` | internal/ordersvc/worker.go:278-287 | And not before: a row nobody leases is claimed by nobody, and keeps its retry time, in any run that ends before that time. |
| `Leases.RunInv` | internal/ordersvc/reconciliation_worker.go:333-407 | Unexpired claims are exclusive and backed by the row's own lease fields in every run. |
| `Leases.OthersSpare` | internal/ordersvc/worker.go:272-352 | Whatever the others do between two statements of a worker, they leave its batch, every published or completed unleased row, and its having lost a row as they are. |
| `Outbox.SelectClaimable` | internal/ordersvc/worker.go:278-287 | The claim query returns the first claimable unlocked rows in identifier order, as many as the limit allows. |
| `Outbox.Table.ClaimPending` | internal/ordersvc/worker.go:272-316 | Exactly those rows are leased. |
| `Outbox.Table.MarkRow` | internal/ordersvc/worker.go:334-352 | A mark succeeds for the owner of the lease only and otherwise changes nothing; it is refused only if the lease has run out or the row has been completed. |
| `Outbox.Table.ReleaseClaimed` | internal/ordersvc/worker.go:318-332 | Only the worker's own leases among the listed rows are given up. |
| `Outbox.Channel.Publish` | internal/ordersvc/publisher_confirm.go:55-95 | Success exactly if a confirmation arrived and the broker's verdict on this very message was an acknowledgement; the channel stays in step after an acknowledgement or its refusal. |
| `Outbox.PublishPending` | internal/ordersvc/worker.go:215-270 | One pass with the others at work between its statements, the clock running and any statement failing: every row before the one it stops at was sent in turn, acknowledged for its own message and is published for good; it stops at a row only because that row's publication was not confirmed or a statement failed or the lease was lost; after a failed publication no row of the batch is the worker's any more; a mark is lost only to an expired lease or a completed row; and a pass nobody disturbs publishes exactly the rows before the first one whose message is not acknowledged, completely if there is none, and leaves that row due for retry and the rest as it was. |
| `Publisher.ReadsItsOwnConfirmation` | internal/ordersvc/publisher_confirm.go:82-95 | On every channel of every run the k-th publish reads the k-th confirmation. |
| `Publisher.PublishedWasAcked` | internal/ordersvc/worker.go:224-258 | After any run of any workers a row is Published only if the broker acknowledged that row's own message. |
| `Publisher.GoingOnWouldMislead` | internal/ordersvc/worker.go:179-182 | A publisher that kept its channel after a timeout would mark a row Published on another row's acknowledgement. |
| `Limiter.Normalized` | internal/platform/ratelimit/limiter.go:19-42 | All limits are positive, and each positive one is kept. |
| `Limiter.Limiter.Allow` | internal/platform/ratelimit/limiter.go:83-110 | Allow as written decides as the specification does, with some least recently seen client as the one evicted. |
| `Limiter.Limiter.Spend` | internal/platform/ratelimit/limiter.go:93-109 | Both buckets are refilled and charged as the specification says. |
| `Limiter.Limiter.Client` | internal/platform/ratelimit/limiter.go:112-129 | A client is created full on first sight, after an eviction if the table is full. |
| `Limiter.Limiter.Cleanup` | internal/platform/ratelimit/limiter.go:131-142 | Exactly the clients idle for longer than the time to live are forgotten, and only when a cleanup is due. |
| `Limiter.Limiter.EvictOldest` | internal/platform/ratelimit/limiter.go:144-156 | The evicted client is one that no other was last seen before. |
| `LimiterProof.WaitExact` | internal/platform/ratelimit/limiter.go:172-181 | The computed wait is the first nanosecond at which the bucket holds a token. |
| `LimiterProof.GlobalWindow` | internal/platform/ratelimit/limiter.go:83-110 | In any window of any run at most burst + rate * length requests are admitted. |
| `LimiterMemory.ForgettingIsInvisible` | internal/platform/ratelimit/limiter.go:131-142 | If a bucket fills up within the time to live, then in every run in which the table does not fill up, however many clients come and go, the limiter makes exactly the decisions of one that never forgets. |
| `LimiterMemory.RoomForAll` | internal/platform/ratelimit/limiter.go:112-129 | A table with room for everybody who ever asks does not fill up. |
| `LimiterMemory.ClientWindow` | internal/platform/ratelimit/limiter.go:83-142 | In all these runs burst + rate * length bounds what is admitted of every single client in every window. |
| `LimiterBound.ClientsKeptIffLasting` | internal/platform/ratelimit/limiter.go:83-142 | If a bucket fills up within the time to live or the common bucket has room for a burst and, a time to live later, one request too many: that bound holds in all runs in which the table does not fill up if and only if a bucket fills up within the time to live. |
| `LimiterBound.ShortMemoryAdmitsMore` | internal/platform/ratelimit/limiter.go:131-142 | For every such configuration with a shorter memory a client gets a burst before it is forgotten and, right after, one request more than the window allows. |
| `LimiterBound.CommonBucketKeeps` | internal/platform/ratelimit/limiter.go:83-110 | A common bucket no larger and no faster than a client's keeps every client to its rate by itself, however short the memory. |
| `LimiterMemory.DenialSpendsNothing` | internal/platform/ratelimit/limiter.go:98-105 | A denied request changes neither bucket's credit at any later time; the other clients are exactly those the cleanup leaves, with the buckets they had, less the one evicted if the table was full. |
| `LimiterMemory.WaitIsExact` | internal/platform/ratelimit/limiter.go:98-105 | After the returned wait the same client is admitted, and, unless forgotten meanwhile, not before. |
| `LimiterMemory.RetryAfter` | cmd/api-gateway/main.go:178-183 | The Retry-After header (section 10.2.3 of RFC 9110): whole seconds, at least one, no shorter than the wait and less than a second longer. |
| `LimiterMemory.RetryAfterSuffices` | cmd/api-gateway/main.go:178-183 | A client that waits as the header says is admitted. |
| `LimiterMemory.TableIsBounded` | internal/platform/ratelimit/limiter.go:112-129 | The client table never exceeds its limit. |
| `Breaker.Normalized` | internal/platform/resiliencehttp/circuit_breaker.go:41-52 | All settings are positive, and each positive one is kept. |
| `Breaker.RunInv` | internal/platform/resiliencehttp/circuit_breaker.go:93-162 | Over any interleaving of acquires and late completions: half open means between one and the maximum of probes in flight and otherwise none; in flight never exceeds the outstanding probe tokens and equals them if the maximum is one; the closed counter is the current run of failures and below the threshold. |
| `Breaker.OpensAndCloses` | internal/platform/resiliencehttp/circuit_breaker.go:122-162 | Exactly when the circuit opens and exactly when it closes. |
| `Breaker.NothingPassesWhileOpen` | internal/platform/resiliencehttp/circuit_breaker.go:97-104 | No caller passes during the open interval, whatever is settled meanwhile. |
| `Breaker.RetryAfterIsExact` | internal/platform/resiliencehttp/circuit_breaker.go:99-102 | The wait named while open is exact. |
| `Breaker.NeverWedges` | internal/platform/resiliencehttp/circuit_breaker.go:93-162 | Once all tokens are settled the breaker is not half open and lets a caller through after at most one open interval. |
| `Breaker.ProbeLimitHoldsIffOne` | internal/platform/resiliencehttp/circuit_breaker.go:157-162 | The limit on probes bounds the outstanding probe tokens in all runs if and only if it is one. |
| `Breaker.CircuitBreaker.Acquire` | internal/platform/resiliencehttp/circuit_breaker.go:93-120 | Acquire as written takes the specified step and keeps the invariant; its ticket carries a fresh token, or the time until the circuit can be probed. |
| `Breaker.CircuitBreaker.Finish` | internal/platform/resiliencehttp/circuit_breaker.go:115-119 | A completion counts the first time and does nothing afterwards. |
| `Breaker.CircuitBreaker.Complete` | internal/platform/resiliencehttp/circuit_breaker.go:122-155 | Complete as written equals its specification. |
| `Retry.Doubling` | internal/platform/resiliencehttp/client.go:248-260 | The doubling loop never overflows and yields the capped exponential, or the cap where that comes to one less. |
| `Retry.DelayIsCappedDoubling` | internal/platform/resiliencehttp/client.go:248-260 | The delay lies between min(max, base * 2^(n-1)) and one more, is equal to it if max is even, and never falls with the attempt. |
| `Retry.Normalized` | internal/platform/resiliencehttp/client.go:85-103 | A normalised policy is usable, and a usable one is kept. |
| `Retry.Backoff` | internal/platform/resiliencehttp/client.go:248-260 | The delay before a retry of the client. |
| `Retry.RetryDelay` | internal/ordersvc/reconciliation_worker.go:413-428 | The delay before a retry of a reconciliation worker, for any configuration. |
| `Retry.Try` | internal/platform/resiliencehttp/client.go:166-182 | One attempt settles the token it takes, last of all and as a failure exactly if the reply can be retried; the circuit breaker's ticket decides whether there is a call at all. |
| `Retry.Do` | internal/platform/resiliencehttp/client.go:138-206 | With other callers at work throughout and any jitter per attempt: every token is settled, at most MaxAttempts calls are made, a retry follows a retryable reply and starts with more than the minimum gap left, a retryable reply is handed back only when out of attempts or of time, and every other answer has its cause, a barred caller being told the wait the breaker named. |
| `MonolithProof.LogsExplainStock` | internal/service/order_service.go:41-175 | After any sequence of transactions a product's logs form an unbroken before/after chain that ends at its stock, and stock plus what the uncancelled orders hold is all stock put in. |
| `MonolithProof.StockIsWhatWasPutIn` | internal/service/inventory_service.go:18-125 | After any sequence of transactions, stock plus what the uncancelled orders hold is the sum of what the granted Init and Add requests asked to put in. |
| `MonolithProof.OneOrderPerKey` | internal/service/order_service.go:42-72 | Every committed key record is completed, points to an order of its user, no two to the same one, and every order has a key. |
| `MonolithProof.HashIsContent` | internal/service/order_service.go:195-219 | Two requests have the same hash exactly if their items are permutations of each other. |
| `MonolithProof.RetryReturnsTheOrder` | internal/service/order_service.go:41-72 | For ever after its creation a retry with permuted items returns the order, and with any other items is a conflict; neither changes anything. |
| `MonolithProof.OrderLifeCycle` | internal/service/order_service.go:374-436 | Orders go from Pending to Paid to Finished or from Pending to Cancelled only. |
| `MonolithProof.PendingCanBeCancelled` | internal/service/order_service.go:317-372 | Cancelling a pending order never fails. |
| `MonolithProof.StockNeverNegative` | internal/service/order_service.go:101-116 | Stock never goes below zero, and no order holds a quantity that is not positive. |
| `MonolithProof.TotalWraps` | internal/service/order_service.go:89-149 | The total of an order that gets through is its price in int64, and the exact price if and only if that is at most 2^63-1. |
| `MonolithProof.StoredIff` | migrations/00005_create_order_items.sql:13-16 | An order that could be served is stored if and only if its int64 subtotals are positive and their int64 sum is not negative, and then for its price in int64; otherwise the constraints refuse it and nothing changes. |
| `MonolithService.ValidateDuplicates` | internal/service/order_service.go:183-193 | Refuses exactly the requests that name a product twice. |
| `MonolithService.Database.DeductItems` | internal/service/order_service.go:89-149 | The deducting loop equals its specification and stops at the first item that cannot be served or that the constraints refuse. |
| `MonolithService.Database.CreateOrder` | internal/service/order_service.go:27-181 | CreateOrder as written, constraint errors and rollback included, equals its transaction and keeps the invariant; an order it answers with holds the requested items and is the one its key names, and a refusal changes nothing. |
| `MonolithService.Database.CancelPendingOrder` | internal/service/order_service.go:317-372 | The guarded update and the restoring loop as written equal their transaction. |
| `MonolithService.Database.CancelOrder` | internal/service/order_service.go:254-286 | CancelOrder succeeds exactly on the user's own pending or cancelled order, leaves it cancelled and keeps the invariant. |
| `MonolithService.Database.CancelExpiredOrder` | internal/service/order_service.go:288-315 | Once the timeout of its event has passed the order is not pending any more; before, and for another event, nothing changes; the invariant is kept. |
| `MonolithService.Database.PayOrder` | internal/service/order_service.go:374-404 | With any transactions of others between the read and the guarded update, payment succeeds exactly if the order could be paid at both, and leaves it paid. |
| `MonolithService.Database.FinishOrder` | internal/service/order_service.go:406-437 | With any transactions of others between the read and the guarded update, finishing succeeds exactly if the order could be finished at both, and leaves it finished. |
| `MonolithService.Database.InitInventory` | internal/service/inventory_service.go:18-67 | Succeeds exactly for a known product without stock and a quantity that is not negative, changes that stock only, and keeps the invariant. |
| `MonolithService.Database.AddInventory` | internal/service/inventory_service.go:80-125 | Succeeds exactly for a stocked product and a positive quantity, adds it to that stock only, and keeps the invariant. |
| `Metrics.KeyIdentifiesLabels` | internal/platform/metrics/registry.go:209-224 | Two label sets get the same key exactly when they are equal, whatever bytes their values hold. |
| `Metrics.NormalizeLabels` | internal/platform/metrics/registry.go:209-224 | The key is built as specified, whatever the iteration order of the map. |
| `Metrics.Deduplicate` | internal/platform/metrics/registry.go:232-241 | Repetitions are dropped in place: what remains is strictly increasing and has the same values. |
| `Metrics.NormalizeBounds` | internal/platform/metrics/registry.go:226-242 | The bounds come out strictly increasing with the same values; none at all is refused. |
| `Metrics.IncreasingUnique` | internal/platform/metrics/registry.go:244-254 | Normalised bounds depend on the set of values only, so equal sets never conflict. |
| `Metrics.Family.Observe` | internal/platform/metrics/registry.go:95-111 | After any sequence of observations every bucket is the number of that label set's observations at or below its bound, and count and sum are right. |
| `Metrics.Family.SampleFor` | internal/platform/metrics/registry.go:196-207 | A label set finds its own sample, or a new one at zero. |
| `Metrics.BucketsAreCumulative` | internal/platform/metrics/registry.go:105-110 | No bucket exceeds the next one, nor the count. |

## Left out

- HTTP handlers, gin routing, gRPC, protobuf, configuration and main functions: plumbing.
- The React front end and the Python scripts.
- The internals of MySQL, GORM, RabbitMQ, Redis, JWT and bcrypt: tables with atomic transactions, row locks and in-order confirmations stand for them; sha256 over JSON is taken to be injective.
- The product cache: a cached value may be stale until it expires, so there is nothing exact to state.
- Telemetry, access logs, reliability snapshots, the text exposition of metrics and counters and gauges: reporting or easy.
- The older timeout worker in internal/ordertimeout: no leases, and weaker than the one modelled.
- Get, List, ListLogs and the reconciliation dry run: reads.
- Rounding of floating-point numbers in the limiter and in histograms, and non-finite values: tokens, bounds and observations are reals.
- The acknowledgement, requeueing and rejection of timeout messages in handleDelivery: its call is `SagaService.Deployment.TimeoutCancel` and its row update is a step of `Leases`.
- The random jitter of a retry: an arbitrary function of the delay.
- That a completed outbox row stays completed, and that a pending order keeps a live timeout event: the code does not promise these.
- Trimming of identifiers and keys: the model takes them trimmed.
- The range of BIGINT columns: counters, totals of stock and log quantities are unbounded integers. `LedgerProof.CountersFit` says when the columns hold them; beyond that a statement fails.
- The length of text columns and their collation (utf8mb4_general_ci): keys and identifiers are compared exactly, so two keys that differ only in case are two keys here and one key there.
- LimiterBound.ClientsKeptIffLasting: says nothing of a short memory whose common bucket lets a burst through but not one request too many a time to live later; `LimiterBound.CommonBucketKeeps` covers the smallest of these.
- Metrics.Family.Observe: bucket arrays are values, not shared memory; validation of names and conflicting registrations, which panic, are not modelled.
- Limiter.Limiter.Allow: the mutex is taken for granted; the clock is a parameter.
- Branches that re-check the number of rows updated after the row has been locked: they cannot be taken.
