# go-tpc in Dafny

A model of the parts of go-tpc that compute something a benchmark relies on, and proofs about them:

- the TPC-C database as the loader writes it, the three writing transactions in both of their forms (statement
  by statement from the client, and as PL/pgSQL procedures), and the consistency conditions of clause 3.3.2 of the
  TPC-C specification as the check queries state them;
- the TPC-H generator: its random streams, the jump-ahead and skip routines, parts and their suppliers, orders and
  their dates, customers and suppliers;
- the loading sinks: the batching sink with its retry protocol, and the concurrent sink;
- smaller pieces these rest on: partition layouts, the threads' strides, interval measurement, placeholder rewriting.

Tables are maps from primary key to row, and `history`, which has no key, is a sequence. A column is an option where a
transaction can leave NULL in it. Money is in cents; tax and discount are in ten-thousandths. Where SQL leaves an order
open (rows of a query, customers with equal first names) the model allows every order. Transactions are atomic and one
INSERT inserts all of its rows or none. Methods that change the database or the random streams are proved against
functions of the old state; the invariants, refinements and run theorems are about those functions.

Modules, from the bottom up:

| files | what they hold |
|---|---|
| `Aggregates`, `Counting`, `Division`, `Bits`, `Decimal`, `Strides` | SUM over tables, cardinalities and permutations, remainders, bitwise operations, digits, strided sharing of work |
| `Schema`, `Checks`, `Consistency`, `CheckRun` | tables, the check queries, the inductive invariant behind them, the threads of the check |
| `Damage` | what the check queries notice, and what they do not |
| `NewOrders`, `Payments`, `Deliveries` | the transactions as functions, refinement and preservation |
| `OrderInput`, `ClientTxns`, `ProcTxns` | input generation and the transactions as methods on the tables |
| `Loading`, `Loader`, `Prepare` | what the loader writes, the loader loops, the threads of the loader |
| `Runs`, `Workload` | whole runs, as functions and as methods |
| `Counters`, `References` | what the columns no check reads count, column widths, foreign keys |
| `Generators`, `Streams`, `Distributions` | generators, streams and rows, weighted choice and permutations |
| `Parts`, `Calendar`, `Orders`, `Parties`, `Driver`, `Money` | the generated tables, the row loop and the skip functions, amounts as text |
| `FirstRows` | the first rows of the tables, as the tests of the generator list them |
| `SqlSink`, `SinkLoading`, `ConcurrentSink` | the sinks, and loading through them |
| `Measurement`, `Partitions`, `Placeholders` | the smaller pieces |

## Results

- Every run of generated transactions from the loaded database, in any mixture of the two forms and whatever the server
  answers where it has a choice, passes every check in every warehouse, and no transaction of it fails
  (`Runs.RunPassesChecks`, `Workload.Benchmark`); orders minus undelivered orders are exactly 2100 plus the deliveries
  made in the district. The loaded database itself passes the strict form, for every number of loader threads
  (`Prepare.PrepareAll`, `Loading.LoadedPassesChecks`).
- The checks notice damage. A transaction that loses any one of its statements, or a row that is lost, makes a condition
  fail in its warehouse and in no other; the `Damage` lemmas say which condition and, where a condition makes exceptions,
  exactly when. A customer who was not charged, for instance, is noticed by 3.3.2.10 only, and only if the customer has
  delivered lines. The exceptions have a price: a database that lost all its orders, lines, queue rows and payments passes
  every check (`Damage.EmptyTablesPass`), and so does one that lost all lines or all payments.
- What no check reads is right too after every run: the payment and delivery counts, the flag for local orders, the owners
  of the orders, and line amounts that fit their column (`Counters.RunCounted`, `Counters.RunOrders`,
  `Counters.RunInColumns`).
- The client-side transactions and the procedures are not interchangeable without condition. A payment by last name
  charges the customer in the middle of a listing ordered by first name, and client and procedure query the listing
  separately. If another customer of the name shares the middle customer's first name, the two may charge different
  customers (`Payments.TieDiffers`). That is the only reason in a consistent database: runs of the same transactions leave
  the same database, in any forms and for any answers of the server, if and only if in the starting database no payment
  by name meets such a tie (`Runs.RunIgnoresForm`). The loader's random first names do not rule ties out.
- Over arbitrary databases the exact conditions, with and without foreign keys, are proved for each transaction. A missing
  customer, warehouse or stock row makes the client of New-Order give up while the procedure goes on, with NULL amounts
  when the customer or the warehouse is missing (`NewOrders.NewOrderFormsAgree`). A missing row, a NULL balance or a tie
  makes the forms of Payment differ (`Payments.PaymentFormsAgree`). Rows under order id 0, orders without their row or
  their lines, and NULL sums make the forms of Delivery differ (`Deliveries.DeliveryFormsAgree`).
- The comment in the sink says that a duplicate key after an attempt of unknown outcome means the batch was committed.
  That needs a unique key and fresh batch keys: `SqlSink.ExactlyOnceIff` proves that success means exactly-once delivery
  for every behaviour of server and network if and only if the table has a unique key and the batch's keys are fresh,
  or nothing is ever retried. The `history` table is created without a unique key, so a retried batch of it can be
  inserted twice (`SqlSink.InsertedTwice`); every sink then reports success and condition 3.3.2.8 fails
  (`SinkLoading.RetriedHistoryFailsCheck`). Without retries success means the loaded database (`SinkLoading.LoadDatabase`).
- Every drawn column of row k of a generated table is a function of k and the start seeds: the rows before it do not
  matter, however many draws they took (`Driver.GenTbl`). So a part of a table made after skipping is exactly that
  part of the whole table (`Driver.GenChunk`), and tables made apart from the same seeds fit together
  (`Driver.PartnersAgree`). Two streams escape the discipline without harm. Stream 39 belongs to the line items and
  has boundary 1, but `sdLineItem` does not skip it; no row draws from it. Stream 47 is not realigned by the row
  functions; it keeps step because every supplier draws from it exactly once.
- The first rows of the generated tables are, number by number, those that the tests of the generator list (`FirstRows`).
- Every permutation of the colours is given by exactly one choice of draws (`Distributions.SpelledOnce`).
- The jump-ahead routines equal step-by-step iteration for every count, and the multiplicative generator never reaches
  0 and never merges two seeds.
- A table generated after others gets the rows of the places to which the earlier rows of its family moved the
  streams; the first of a family those it would have alone (`Driver.DbGen`, `Driver.FirstOfFamily`).
- The entries of the list of tables do not all skip what their rows draw. Skipping by a table's own entries is generating
  exactly for six of the ten tables: line items and part suppliers made alone also draw from the streams of orders and
  parts, and nations and regions skip nothing (`Driver.SkippableIff`). For orders it is so only below scale 30000: from
  there on customer keys are drawn with the 64-bit generator, but skipped with the 31-bit one
  (`Driver.CustKeysSkippedIff`, `Driver.LargeScaleDiffers`).
- Measurement pairs every operation with the name of its failures, operation_ERR, so that both are always there. The maps
  know names only. If an operation is itself named like the failures of another, as two query files q1.sql and
  q1_ERR.sql make them, it gets no failures name and its successes are counted as failures of the other
  (`Measurement.NamedLikeFailures`); the pairs hold in every run if and only if there is no such operation
  (`Measurement.TogetherIff`). Samples are conserved per name in any case (`Measurement.SamplesConserved`).
- Every supplier appears in exactly 80 part/supplier pairs at every scale.
- RANGE partitions round their size up, so partitions at the end can be empty (six parts of ten warehouses leave the
  sixth empty, `Partitions.SixPartsOfTen`); the exact condition is `Partitions.RangeEmpty`. The list-as-range layout is
  even to within one.

## Model

| member | source | states |
|---|---|---|
| Consistency.QueueCounted | tpcc/check.go:90-153 | with the oldest undelivered order at lo, the queue holds exactly lo .. d_next_o_id - 1, so its newest entry is the newest order and its size has no gap |
| Consistency.OrdersCounted | tpcc/check.go:408-415 | a district has d_next_o_id - 1 orders |
| Consistency.LinesCounted | tpcc/check.go:215-251 | the number of rows of order_line of any order is its o_ol_cnt (3.3.2.6, without the exception for orders without lines) |
| Consistency.OlCntsSummed | tpcc/check.go:155-183 | per district the sum of o_ol_cnt is the number of order lines (3.3.2.4) |
| Consistency.QueueConditions | tpcc/check.go:90-153 | the order book satisfies 3.3.2.2, 3.3.2.3 and the running form of 3.3.2.11 |
| Consistency.ConsistentPassesChecks | tpcc/check.go:26-57 | a consistent database passes all twelve check queries of a warehouse; the `Damage` rows say what they notice |
| CheckRun.CheckThread | tpcc/check.go:48-57 | a thread succeeds exactly when all warehouses of its stride pass, and then has checked each of them once |
| CheckRun.CheckedOnce | tpcc/check.go:48-49 | warehouse w is checked, once, by the thread (w - 1) mod threads and by no other |
| CheckRun.CheckAll | tpcc/check.go:48-57 | for every number of threads, all threads succeed exactly when every warehouse passes |
| Damage.DistrictYtdLost | tpcc/check.go:59-88 | a Payment in a consistent database that does not update the district total fails 3.3.2.1 and 3.3.2.9, in its warehouse and in no other |
| Damage.WarehouseYtdLost | tpcc/check.go:283-311 | one that does not update the warehouse total fails 3.3.2.1 and 3.3.2.8, there and only there |
| Damage.HistoryRowLost | tpcc/check.go:283-341 | one that enters nothing in the history fails 3.3.2.8 and 3.3.2.9 exactly when the warehouse and the district have other payments |
| Damage.ChargeLost | tpcc/check.go:343-382 | one that does not charge the customer fails 3.3.2.10 exactly when the customer has delivered lines; 3.3.2.12 does not notice |
| Damage.HalfChargeLost | tpcc/check.go:450-481 | one that updates only one of the two amounts of the customer fails 3.3.2.12 exactly when the customer has delivered lines |
| Damage.NextIdLost | tpcc/check.go:90-123 | a New-Order that does not update the next order id fails 3.3.2.2 in its warehouse and in no other |
| Damage.OrderInsertLost | tpcc/check.go:90-123 | one that does not insert the order fails 3.3.2.2 there and only there |
| Damage.OrderMissing | tpcc/check.go:155-183 | and 3.3.2.4, because its lines are too many |
| Damage.QueueInsertLost | tpcc/check.go:90-123 | one that is not queued fails 3.3.2.2 exactly when the district has other queued orders |
| Damage.QueueInsertMissing | tpcc/check.go:185-213 | and always 3.3.2.5, as an order without carrier that is not in the queue |
| Damage.LinesInsertLost | tpcc/check.go:155-183 | one that does not insert its lines fails 3.3.2.4 |
| Damage.LinesMissing | tpcc/check.go:215-251 | but not 3.3.2.6, which says nothing about orders without lines |
| Damage.QueueDeleteLost | tpcc/check.go:185-213 | a delivered order that is still in the queue fails 3.3.2.5 in its warehouse and in no other |
| Damage.CarrierLost | tpcc/check.go:185-213 | so does one that left the queue without a carrier |
| Damage.CarrierMissing | tpcc/check.go:253-281 | which fails 3.3.2.7 too, because its lines have dates |
| Damage.DatesLost | tpcc/check.go:253-281 | a delivered order whose lines got no date fails 3.3.2.7 |
| Damage.CreditLost | tpcc/check.go:343-481 | a delivery that does not credit the buyer fails 3.3.2.12 exactly when the order costs something, and 3.3.2.10 exactly when the buyer has also paid something |
| Damage.QueueRowLost | tpcc/check.go:185-213 | a row missing in the queue fails 3.3.2.5 |
| Damage.QueueGapNoticed | tpcc/check.go:125-153 | and 3.3.2.3 exactly when it was neither the oldest nor the newest of its district |
| Damage.QueueEndNoticed | tpcc/check.go:90-123 | and 3.3.2.2 exactly when it was the newest and not the only one |
| Damage.QueueRowMissing | tpcc/check.go:402-448 | and, where 2100 orders are delivered in each district, the strict form of 3.3.2.11 unless it was the only one |
| Damage.LineLost | tpcc/check.go:155-251 | a missing line fails 3.3.2.4 and 3.3.2.6 |
| Damage.LineAdded | tpcc/check.go:155-251 | so does a line too many |
| Damage.OrderLost | tpcc/check.go:402-448 | a missing order fails 3.3.2.11 exactly when just 2100 orders of the district were delivered and others are queued |
| Damage.OrderMissed | tpcc/check.go:402-448 | and its strict form whenever others are queued |
| Damage.EmptyTablesPass | tpcc/check.go:26-57 | a consistent database that lost all its orders, lines, queue rows and payments passes every check |
| Damage.NoHistoryPasses | tpcc/check.go:283-382 | so does one that lost its payments only |
| Damage.NoLinesPasses | tpcc/check.go:155-251 | and one that lost its lines only |
| NewOrders.PlacedLinesUntouched | tpcc/procs_pg.go:129-167 | the per-item loop leaves a stock row alone until an item of the order names it |
| NewOrders.LinesAgree | tpcc/new_order.go:305-322 | the one multi-row insert puts the same lines as the inserts of the procedure's loop |
| NewOrders.LaterKeys | tpcc/procs_pg.go:172-175 | the lines inserted so far do not take the keys of the later ones |
| NewOrders.StockAgrees | tpcc/new_order.go:260-303 | with distinct items, quantities computed from one read of all stock rows give the same stock as reading before each update |
| NewOrders.UnknownItemOutcome | tpcc/new_order.go:249-258 | the first unknown item decides: a rollback exactly when only the wanted unknown item is unknown |
| NewOrders.NewOrderFormsAgree | tpcc/procs_pg.go:73-176 | client and procedure leave the same database and outcome if and only if the procedure fails too, or customer and warehouse exist and so do the stock rows of an order whose items are all known; for databases with and without foreign keys |
| NewOrders.ProcNewOrderEffect | tpcc/procs_pg.go:73-176 | the procedure fails exactly by one of its own guards, rolls back exactly when only the wanted unknown item is unknown, and otherwise places the whole order; nothing else changes the database |
| NewOrders.AmountRounds | tpcc/new_order.go:285 | the amount of a line is within half a cent of quantity * price * (1 + w_tax + d_tax) * (1 - c_discount) |
| NewOrders.AmountEnds | tpcc/procs_pg.go:169-170 | it is quantity * price without tax and discount, and 0 at full discount |
| NewOrders.AmountIncreases | tpcc/procs_pg.go:169-170 | it never falls when quantity, price or a tax grows, and never grows with the discount |
| NewOrders.LinesCharged | tpcc/new_order.go:270-322 | every line of a committed New-Order, of either form, holds its item, supplier and quantity, is undelivered and costs its exact price up to half a cent |
| NewOrders.MissingStockDiffers | tpcc/new_order.go:292-296 | an order as the input generation makes it, of five items, the last without its stock row: the client gives up, the procedure commits the order |
| NewOrders.MissingCustomerDiffers | tpcc/procs_pg.go:73-79 | an order as the input generation makes it, without its customer: the client gives up, the procedure commits lines with NULL amounts |
| NewOrders.KeysFree | tpcc/new_order.go:209-219 | in a valid order book the next order id and the keys of its lines are free |
| NewOrders.PlacedLineKeys | tpcc/procs_pg.go:172-175 | the new lines are numbered 1 .. n under the new order, are undelivered, and no other line changes |
| NewOrders.LineCounted | tpcc/new_order.go:19 | one placed line keeps a stock row's quantity in 10 .. 100 and its counters equal to the totals of the order lines |
| NewOrders.LinesCounted | tpcc/new_order.go:277-303 | all lines of an order keep a stock row's totals |
| NewOrders.DeliveredUnchanged | tpcc/check.go:455-459 | placing an order changes nobody's delivered amount |
| NewOrders.NewOrderKeepsOrders | tpcc/new_order.go:197-221 | placing an order keeps the ids 1 .. d_next_o_id - 1 |
| NewOrders.NewOrderKeepsQueue | tpcc/new_order.go:215-221 | placing an order keeps the queue a suffix of the ids and the carrier null exactly in the queue |
| NewOrders.NewOrderKeepsLines | tpcc/new_order.go:305-322 | placing an order keeps lines numbered 1 .. o_ol_cnt and delivered exactly when the order has a carrier |
| NewOrders.NewOrderKeepsConsistent | tpcc/new_order.go:135-324 | every generated New-Order leaves the same database in both forms, keeps it consistent, and rolls back exactly when it asks for it |
| NewOrders.NewOrderKeepsResidues | tpcc/new_order.go:277-281 | s_quantity + s_ytd of every stock row stays the same modulo 91 |
| Payments.PaymentFormsAgree | tpcc/procs_pg.go:212-276 | client and procedure agree, whatever the server answers to their queries by name, if and only if the procedure fails anyway, or every row the client reads exists, the balance is not NULL and the name settles the customer |
| Payments.TieDiffers | tpcc/procs_pg.go:230-234 | two customers of one first and last name: all rows exist, the payment is one the input generation makes, and client and procedure may charge different customers |
| Payments.ConsistentFormsAgree | tpcc/procs_pg.go:212-276 | in a consistent database the forms agree if and only if the payment is by id, nobody has the name, or the median is alone with the first name |
| Payments.MiddleIsMedian | tpcc/payment.go:141-144 | the customer in the middle of a listing is the median if and only if nobody else of the name has the same first name |
| Payments.MedianIsMiddle | tpcc/payment.go:18 | the median is in the middle of every listing the server can answer with |
| Payments.ChoiceFixedIff | tpcc/procs_pg.go:230-234 | all answers of the server choose the same customer if and only if no other customer of the name shares the first name of the chosen one |
| Payments.OrderedExists | tpcc/payment.go:18 | the server can always answer: any set of customers has a listing by first name |
| Payments.MiddleSplits | tpcc/payment.go:123-145 | the chosen customer has the name, and half of the others come before and half after by first name |
| Payments.SomeLastNames | tpcc/rand.go:111-125 | BARBARBAR, PRICALLYOUGHT and EINGEINGEING are the names of 0, 371 and 999 |
| Payments.LastNamesDiffer | tpcc/rand.go:111-125 | the thousand last names are different |
| Payments.PayingKeepsYtd | tpcc/payment.go:101-115 | a payment keeps W_YTD = sum of D_YTD = sum of H_AMOUNT and D_YTD = sum of H_AMOUNT |
| Payments.PayingKeepsBalances | tpcc/payment.go:154-183 | a payment keeps C_BALANCE and C_YTD_PAYMENT equal to delivered and paid amounts |
| Payments.PaymentKeepsConsistent | tpcc/payment.go:66-186 | every generated Payment keeps the database consistent, in either form and whatever the server answers, and commits unless nobody has the name |
| Deliveries.BatchIsSteps | tpcc/delivery.go:67-175 | the batched statements do the same as the statements for one district after the other |
| Deliveries.LoopIsSteps | tpcc/procs_pg.go:369-397 | the loop of the procedure, which reads each district after the earlier ones were delivered, does what each district held at the start tells it |
| Deliveries.DeliveryFormsAgree | tpcc/procs_pg.go:369-397 | batch and loop leave the same database and outcome if and only if no sum is NULL and, in every district, an empty queue has no rows under order id 0 to change, an order 0 has nobody to credit, and an order to deliver has its row and its sum |
| Deliveries.MarkerRowDiffers | tpcc/delivery.go:59-61 | one concrete database with an order 0 in an empty district and a delivery as generated, on which the forms differ |
| Deliveries.BookAgrees | tpcc/delivery.go:53-176 | in a valid order book the two forms agree, whichever districts are empty |
| Deliveries.DeliverKeepsQueue | tpcc/delivery.go:67-95 | delivering the oldest order keeps the queue a suffix and the carrier null exactly for undelivered orders |
| Deliveries.DeliveredShifts | tpcc/delivery.go:124-162 | delivering an order adds its amount to the delivered amount of its buyer and of nobody else |
| Deliveries.DeliverKeepsBalances | tpcc/delivery.go:167-175 | crediting the buyer keeps the two balance equations for every customer |
| Deliveries.DeliveryKeepsConsistent | tpcc/delivery.go:36-177 | every Delivery leaves the same database in both forms, keeps it consistent and does not touch the stock |
| Deliveries.DeliveriesCounted | tpcc/check.go:388-401 | a Delivery raises orders minus undelivered orders by one in each district that had an undelivered order, and nowhere else |
| Deliveries.DeliveryWrites | tpcc/delivery.go:67-122 | the oldest order of a district leaves the queue and gets the carrier, and its lines the date; other orders and lines of the district stay as they are |
| Loading.WarehousePayments | tpcc/load.go:199-226 | the loaded history of a warehouse sums to 300000.00 |
| Loading.CustomerPayments | tpcc/load.go:206-218 | the loaded history of a customer sums to 10.00 |
| Loading.LoadedBook | tpcc/load.go:228-340 | the loaded orders, queue and lines form a valid order book |
| Loading.LoadedIsConsistent | tpcc/load.go:46-340 | the loaded database is consistent and every district has 2100 more orders than undelivered orders |
| Loading.LoadedPassesChecks | tpcc/check.go:402-415 | the loaded database passes every check in the strict form |
| Loading.RepeatedHistoryFailsCheck | tpcc/check.go:283-311 | a batch of loaded history that is there twice makes condition 3.3.2.8 fail for its warehouse |
| Loader.LoadItem | tpcc/load.go:22-44 | writes the items 1 .. 100000 |
| Loader.LoadStock | tpcc/load.go:70-108 | adds a stock row with quantity 10 .. 100 and zero counters for every item of the warehouse |
| Loader.LoadDistrict | tpcc/load.go:110-142 | adds the ten districts with their year-to-date total and next order id |
| Loader.LoadCustomer | tpcc/load.go:144-197 | adds 3000 customers with balance -10.00 and one payment of 10.00; the first 1000 of a district have all 1000 last names |
| Loader.LoadHistory | tpcc/load.go:199-226 | adds one history row of 10.00 for each customer |
| Loader.RandPerm | tpcc/load.go:237-240 | a shuffle by swaps yields a permutation |
| Loader.LoadOrder | tpcc/load.go:228-269 | adds 3000 orders, one for each customer, with a carrier exactly below order 2101, and returns their line counts |
| Loader.LoadNewOrder | tpcc/load.go:271-294 | adds the orders 2101 .. 3000 to the queue |
| Loader.LoadOrderLine | tpcc/load.go:296-340 | adds the lines 1 .. o_ol_cnt of every order, delivered with amount 0 exactly below order 2101 |
| Strides.TakerIsMod | tpcc/prepare.go:58 | the thread that takes an item is the remainder of its number |
| Strides.StrideTakes | tpcc/prepare.go:58-59 | one stride of a thread takes one item that nothing took before |
| Prepare.NextDistrict | tpcc/prepare.go:79-81 | each pass of the district loop loads a (warehouse, district) that no thread or pass loaded before |
| Prepare.PrepareWorkload | tpcc/prepare.go:28-108 | what a thread adds to what the earlier threads loaded |
| Prepare.PrepareAll | tpcc/prepare.go:58-105 | for every number of threads, all threads together load exactly the initial database |
| OrderInput.Tape.DrawUnused | tpcc/new_order.go:163-172 | drawing again until unused yields an unused value whenever the draws hold one |
| OrderInput.GenerateItems | tpcc/new_order.go:150-184 | generated items are distinct, only the last may be the unknown one, remote items are from another warehouse, and all_local says whether there are none |
| ClientTxns.ReadPrices | tpcc/new_order.go:223-248 | item rows in any order reach the position of their item |
| ClientTxns.OpenOrder | tpcc/new_order.go:202-221 | takes the order id and inserts the order and its queue row, and fails exactly when a key is taken or a foreign key does not find the customer |
| ClientTxns.ReadStock | tpcc/new_order.go:260-289 | stock rows in any order give each position its new quantity |
| ClientTxns.InsertLines | tpcc/new_order.go:305-322 | inserts all lines, or none when one of their keys is taken |
| ClientTxns.RunNewOrder | tpcc/new_order.go:135-324 | the statements of the client, with rollback, have the effect of `NewOrders.ClientNewOrder` |
| ClientTxns.SelectByLast | tpcc/payment.go:123-140 | any listing by first name of the customers with the last name, rows of one first name in any order |
| ClientTxns.RunPayment | tpcc/payment.go:66-186 | the statements of the client have the effect of `Payments.ClientPayment` for the answer the server gave |
| ClientTxns.SelectOldest | tpcc/delivery.go:17 | finds the smallest order id in the queue of the district, if any |
| ClientTxns.ReadBuyers | tpcc/delivery.go:97-122 | order rows in any order give each district's slot its customer, and 0 to empty slots |
| ClientTxns.SumAmount | tpcc/delivery.go:30-32 | the sum of the amounts of an order, NULL when no line has one, and whether there are lines |
| ClientTxns.ReadAmounts | tpcc/delivery.go:138-165 | gives each slot the sum of its order, 0 without lines, and gives up exactly on a NULL sum |
| ClientTxns.RunDelivery | tpcc/delivery.go:36-177 | the ten selects and the batched statements have the effect of `Deliveries.ClientDelivery` |
| ProcTxns.LookUpPrices | tpcc/procs_pg.go:106-121 | the first pass fails on an unknown item other than the wanted one and otherwise collects prices and the rollback flag |
| ProcTxns.PlaceItems | tpcc/procs_pg.go:129-176 | the loop places all lines, and fails exactly when a line key is taken or a foreign key does not find a stock row |
| ProcTxns.ProcNewOrder | tpcc/procs_pg.go:45-179 | the procedure's two passes have the effect of `NewOrders.ProcNewOrder` |
| ProcTxns.ProcPayment | tpcc/procs_pg.go:183-279 | the procedure, with its own listing by name, has the effect of `Payments.ProcPayment` for the answer the server gave |
| ProcTxns.ProcDelivery | tpcc/procs_pg.go:357-400 | the district loop has the effect of `Deliveries.ProcDelivery` |
| Runs.StepKeepsConsistent | tpcc/procs_pg.go:9-23 | one generated transaction keeps the database consistent, in either form and whatever the server answers |
| Runs.StepIgnoresForm | tpcc/procs_pg.go:9-23 | the effect of one transaction depends neither on its form nor on the answers if and only if it is settled: not a payment by a name whose median shares the first name |
| Runs.RunKeepsConsistent | tpcc/check.go:17-20 | every run keeps the database consistent and every stock row's quantity plus ytd modulo 91 |
| Runs.RunIgnoresForm | tpcc/procs_pg.go:18-23 | all runs of the same transactions, in any forms and with any answers, leave the same database if and only if in the starting database every payment by name is settled |
| Runs.SomebodyNamed | tpcc/load.go:158-165 | a payment by name always finds a customer |
| Runs.RunSucceeds | tpcc/new_order.go:249-258 | no transaction of a run fails: every New-Order commits unless it asks for the rollback, and every Payment and Delivery commits |
| Runs.RunBacklog | tpcc/check.go:395-401 | orders minus undelivered orders grow by exactly the deliveries of the run |
| Runs.RunPassesChecks | tpcc/check.go:22-57 | from the loaded database every run passes every check in every warehouse, and no transaction fails |
| Counters.RunCounted | tpcc/procs_pg.go:255-270 | after every run from the loaded database c_payment_cnt counts the payments of each customer in the history, c_delivery_cnt the orders delivered since the load, and o_all_local says of each order whether all its lines are local |
| Counters.RunOrders | tpcc/new_order.go:202-219 | a run adds to the orders of each customer exactly the orders it places for that customer |
| Counters.RunInColumns | tpcc/ddl.go:545-556 | after every run from the loaded database each line has an amount that fits DECIMAL(6,2), and each delivered order a carrier from 1 to 10 |
| References.StepRefers | tpcc/ddl.go:603-660 | on any database whose rows refer to existing rows, every call keeps it so, in the client form because of what the client reads, and in the procedures when the tables have foreign keys |
| Workload.RunCalls | tpcc/procs_pg.go:11-19 | the methods, called one after the other in the configured forms, perform a legal run |
| Workload.Benchmark | tpcc/check.go:17-57 | after loading and any run, all checks pass and no transaction has failed |
| Generators.NthElement | tpch/dbgen/rand.go:117-130 | equals n single steps, for every n |
| Generators.FitsInt64 | tpch/dbgen/rand.go:120-128 | the products of the powering loop stay below 2^62 |
| Generators.StepsCompose | tpch/dbgen/rand.go:132-138 | jumps compose additively |
| Generators.Backwards | tpch/dbgen/rand.go:34-36 | 1407677000 undoes a step of the generator |
| Generators.StepsInRange | tpch/dbgen/rand.go:34-36 | a seed in 1 .. 2^31 - 2 never leaves that range |
| Generators.StepsInjective | tpch/dbgen/rand.go:34-36 | different seeds never meet |
| Generators.ScaledInRange | tpch/dbgen/rand.go:44-63 | a scaled draw lies in its range |
| Generators.ScaledIncreases | tpch/dbgen/rand.go:60-62 | a larger seed never gives a smaller value |
| Generators.ScaledEnds | tpch/dbgen/rand.go:60-62 | the smallest seed gives the lower end and the largest the upper end |
| Generators.ScaledHits | tpch/dbgen/rand.go:60-62 | each value is given by exactly the seeds between two bounds |
| Generators.HitsEven | tpch/dbgen/rand.go:60-62 | by floor(M / range) or one more of them, whichever value it is |
| Generators.Steps64Affine | tpch/dbgen/rand.go:38-42 | n steps of the 64-bit generator are one affine map with wrapping |
| Generators.AdvanceRand64 | tpch/dbgen/rand.go:89-115 | equals n single steps with 64-bit wrapping, for every n >= 0, and terminates |
| Streams.InitSeeds | tpch/dbgen/rand.go:190-241 | the 48 start values are valid seeds |
| Streams.Random | tpch/dbgen/rand.go:84-87 | the value is the next draw of its stream since the row started, scaled into the range, and no other stream moves |
| Streams.ARand | tpch/dbgen/rand.go:160-172 | the length and the groups of five characters are the draws of its stream, 1 + ceil(length / 5) of them |
| Streams.VStr25 | tpch/dbgen/rand.go:174-176 | an address takes at most 9 draws |
| Streams.MakeText | tpch/dbgen/misc.go:144-152 | takes two draws, which give a slice inside the text pool |
| Streams.GenPhone | tpch/dbgen/rand.go:178-188 | three draws give the three parts of the number, each in its range |
| Streams.RowStop | tpch/dbgen/rand.go:145-158 | advances each stream of the table or its child by boundary minus usage and no other |
| Streams.RowAligned | tpch/dbgen/rand.go:140-158 | after a row every realigned stream is boundary steps from where the row found it |
| Distributions.ReadDist | tpch/dbgen/dist.go:43-50 | member weights become cumulative |
| Distributions.PickStr | tpch/dbgen/misc.go:34-40 | the scan stops in bounds at the first member whose cumulative weight reaches the draw |
| Distributions.PickedByWeight | tpch/dbgen/misc.go:34-40 | a member is picked exactly by as many consecutive draws as its weight |
| Distributions.PermuteDist | tpch/dbgen/dist.go:52-67 | a permutation, the one the draws give, with one draw for each place |
| Distributions.PermutationCovers | tpch/dbgen/dist.go:52-57 | the permutation contains every index |
| Distributions.ShuffledDraws | tpch/dbgen/dist.go:52-57 | the first entry is the first draw, and entry i what the earlier swaps left at draw i + 1, which lies in i .. count - 1 |
| Distributions.EntryUnused | tpch/dbgen/dist.go:52-57 | the members that no earlier entry is are just those the draw of an entry can choose |
| Distributions.SpelledOnce | tpch/dbgen/dist.go:52-57 | every permutation is given by one choice of draws and by no other |
| Parts.SuppliersDistinct | tpch/dbgen/part.go:59-62 | the four suppliers of a part are distinct and exist |
| Parts.SuppliesExactly | tpch/dbgen/part.go:59-62 | a supplier supplies, as i-th supplier, exactly one part of each round of parts |
| Parts.SuppliedEightyTimes | tpch/dbgen/part.go:107-115 | every supplier appears in exactly 80 part/supplier pairs |
| Parts.PricesRise | tpch/dbgen/misc.go:167-172 | retail prices start at 900.00 and rise by a dollar from part to part and by a cent more every ten parts, up to the two places where they start again; they stay below 2100.00 |
| Parts.MakePart | tpch/dbgen/part.go:93-118 | the part that the draws since the row started spell; five distinct colours, four distinct suppliers that supply it; exactly the boundary of draws on every stream of parts and part suppliers |
| Parts.PartFromDraws | tpch/dbgen/part.go:93-118 | a part depends on nothing but its number and the places of its streams |
| Orders.SparseBits | tpch/dbgen/misc.go:30-32 | the shifts and bitwise operations put the low three bits of the index below the others, two places further up |
| Calendar.Julian | tpch/dbgen/misc.go:194-211 | the loop terminates with year * 1000 + day of the year |
| Calendar.JulianIncreases | tpch/dbgen/misc.go:187-211 | later days have larger Julian forms |
| Calendar.JulianInverse | tpch/dbgen/misc.go:194-211 | every day from the start date is recovered from its Julian form |
| Calendar.JulianDecides | tpch/dbgen/order.go:167-180 | comparing Julian forms with the current date decides the same as comparing day numbers |
| Orders.SparseInverse | tpch/dbgen/misc.go:30-32 | the order index is recovered from the sparse key |
| Orders.SparseIncreases | tpch/dbgen/misc.go:30-32 | sparse keys are strictly increasing |
| Orders.RepairCustKey | tpch/dbgen/order.go:113-117 | the repair loop terminates with the key nearest to the drawn one among those in range that 3 does not divide, and below it only when the drawn key is the maximum |
| Orders.MakeLine | tpch/dbgen/order.go:130-180 | the line its draws spell; its supplier supplies its part, its dates lie in the table and in order, and status and return flag follow from the dates |
| Orders.OpenLineNotReturned | tpch/dbgen/order.go:167-180 | a line with status O has return flag N |
| Orders.MakeLines | tpch/dbgen/order.go:129-183 | the lines the draws spell, one return flag drawn for each received line; counts the shipped lines and sums the charges |
| Orders.ChargeCutsOff | tpch/dbgen/order.go:150-151 | what a line adds to the total is its exact charge cut off, by less than two cents and the tax of one cent |
| Orders.ChargeEnds | tpch/dbgen/order.go:150-151 | it is the price without discount and tax, and nothing at full discount |
| Orders.TotalCutsOff | tpch/dbgen/order.go:150-151 | the total is at most the exact charges and at most three cents for each line below |
| Orders.StatusByCount | tpch/dbgen/order.go:184-189 | F, P or O by counting is F exactly when all lines are shipped and O exactly when none is |
| Orders.RowInBounds | tpch/dbgen/order.go:100-192 | an order draws its own streams to the boundary and those of its lines at most so far |
| Orders.FullOrder | tpch/dbgen/rand.go:204-216 | the boundaries are tight: seven received lines draw every stream of the order and its lines just so far |
| Orders.EveryClerk | tpch/dbgen/misc.go:42-45 | every clerk from 1 to 1000 times the scale is drawn by some seed |
| Orders.MakeOrder | tpch/dbgen/order.go:100-192 | the order that the draws since the row started spell; key, customer, dates, lines, total and status are valid |
| Orders.OrderFromDraws | tpch/dbgen/order.go:100-192 | an order with its lines depends on nothing but its number and the places of its streams |
| Parties.InitTextPool | tpch/dbgen/misc.go:225-241 | terminates with exactly the wanted number of characters, the beginning of the sentences each followed by a space |
| Parties.SplicesPress | tpch/dbgen/supp.go:87-103 | the two splices keep the length, put the two phrases at their places and change nothing else |
| Parties.SuppComment | tpch/dbgen/supp.go:80-103 | the comment the draws spell, with room for both phrases whatever was drawn |
| Parties.PressedComment | tpch/dbgen/supp.go:87-103 | ten draws in ten thousand press the comment, with a complaint below type 50 and a recommendation from there on; the others leave the text |
| Parties.MakeSupp | tpch/dbgen/supp.go:71-106 | the supplier the draws spell; draws exactly the boundary of every supplier stream but the address, at most 9 for it, and one from stream 47 |
| Parties.SuppFromDraws | tpch/dbgen/supp.go:71-106 | a supplier depends on nothing but its number and the places of its streams |
| Parties.MakeCust | tpch/dbgen/cust.go:72-85 | the customer the draws spell; draws exactly the boundary of every customer stream but the address, and at most 9 for it |
| Parties.CustFromDraws | tpch/dbgen/cust.go:72-85 | a customer depends on nothing but its number and the places of its streams |
| Parties.LongestAddress | tpch/dbgen/rand.go:190-241 | the boundary of the address streams is what the longest address draws |
| Driver.MakeRow | tpch/dbgen/driver.go:33-72 | the row the draws spell; no stream goes beyond its boundary, those that are not realigned reach it, and other streams are left alone |
| Driver.MakerFromDraws | tpch/dbgen/driver.go:31-74 | rows of every table depend on nothing but their number and the places of the streams they draw from |
| Driver.MakerExists | tpch/dbgen/driver.go:31-74 | for every table and configuration there is a function from stream places to rows, as the generation theorems take it |
| Driver.GenRow | tpch/dbgen/driver.go:31-74 | makes the row of the places it starts from, moves every stream it aligns or draws by exactly its boundary, and no other |
| Driver.RowMoves | tpch/dbgen/rand.go:145-158 | within the boundary before, exactly at the boundary after realigning, and nothing elsewhere |
| Driver.PartnersAgree | tpch/dbgen/driver.go:33-64 | generating orders, lines or both, each from the same seeds, makes the same orders; likewise parts and their suppliers |
| Driver.GenTbl | tpch/dbgen/driver.go:27-76 | row k is the row of the places that k boundaries give, whatever the rows before it contained; the streams are left at the places for the next row, and those of other tables where they were |
| Driver.ApartIff | tpch/dbgen/rand.go:190-241 | making rows of one table leaves the draws of another alone if and only if they are of different families: orders with lines, parts with part suppliers, and each other table by itself |
| Driver.PoolApart | tpch/dbgen/misc.go:225-241 | filling the text pool changes no table |
| Driver.DbGen | tpch/dbgen/driver.go:104-122 | every table of a list, in any order and with repetitions, gets exactly the rows of the places to which the earlier rows of its family moved the streams |
| Driver.PlacedNext | tpch/dbgen/driver.go:109-118 | one more table of the list moves the streams of every table by its row count when it is of the same family, and not at all otherwise |
| Driver.FirstOfFamily | tpch/dbgen/driver.go:109-118 | the first table of a family in the list gets the rows it would have alone |
| Driver.RowCountsFit | tpch/dbgen/driver.go:78-91 | 80 part/supplier pairs for each supplier, ten orders for each customer, fifteen customers for each supplier, and 10000 suppliers per unit of scale |
| Driver.SdPart | tpch/dbgen/part.go:51-57 | skipping k parts moves every part stream by k times its boundary and no other stream |
| Driver.SdPsupp | tpch/dbgen/part_supp.go:18-24 | the same for part suppliers |
| Driver.SdSupp | tpch/dbgen/supp.go:108-118 | the same for suppliers |
| Driver.SdCust | tpch/dbgen/cust.go:63-70 | the same for customers |
| Driver.SdOrder | tpch/dbgen/order.go:90-98 | the same for orders |
| Driver.SdLineItem | tpch/dbgen/lineitem.go:88-99 | the same for lines, without stream 39, and with the order date and line count for the part-supplier child |
| Driver.SkipRows | tpch/dbgen/driver.go:78-91 | the entries of a table and of its child in the list of tables move exactly the streams that these two own, by k boundaries each, and no other; for every table |
| Driver.SkippableIff | tpch/dbgen/driver.go:78-91 | skipping a table by its own entries moves the streams its rows draw from like generating, from every state and for every count, if and only if it is one of parts, parts with suppliers, suppliers, customers, orders, and orders with lines; not for lines alone, part suppliers alone, nations and regions |
| Driver.CustKeysSkippedIff | tpch/dbgen/order.go:90-108 | from the start seeds, skipping one order moves the stream of customer keys like making it if and only if the scale is below 30000 |
| Driver.LargeScaleDiffers | tpch/dbgen/order.go:104-117 | at scale 30000 the second order has one customer when the first was made and another when it was skipped |
| Driver.SkippingIsGenerating | tpch/dbgen/driver.go:31-74 | rows generated after skipping are, row by row, the rows of the whole table |
| Driver.GenChunk | tpch/dbgen/driver.go:27-76 | for the tables of `Driver.SkippableIff`, skipping and then generating yields exactly that part of the table |
| FirstRows.PlaceIsAhead | tpch/dbgen/driver_test.go:192-239 | the places the following rows are made from are those to which the rows before them move the start seeds |
| FirstRows.FirstCustomer | tpch/dbgen/driver_test.go:83-84 | nation, phone, balance and segment of the first customer are as tested |
| FirstRows.SecondCustomer | tpch/dbgen/driver_test.go:83-85 | and of the second |
| FirstRows.FirstCustomerPhone | tpch/dbgen/driver_test.go:83-84 | its phone number |
| FirstRows.FirstSupplier | tpch/dbgen/driver_test.go:69-70 | nation, phone and balance of the first supplier |
| FirstRows.SecondSupplier | tpch/dbgen/driver_test.go:69-71 | and of the second |
| FirstRows.FirstPart | tpch/dbgen/driver_test.go:97-98 | manufacturer, brand, type, size, container and price of the first part |
| FirstRows.FirstColours | tpch/dbgen/driver_test.go:97-98 | its five colours |
| FirstRows.FirstPartFirst | tpch/dbgen/driver_test.go:111-112 | its first supplier, with quantity, cost and the length of the comment |
| FirstRows.SecondPartFirst | tpch/dbgen/driver_test.go:111-116 | the first supplier of the second part |
| FirstRows.FirstNations | tpch/dbgen/driver_test.go:155-157 | codes of the first two nations, and the lengths of their comments |
| FirstRows.FirstRegions | tpch/dbgen/driver_test.go:184-186 | and of the first two regions |
| FirstRows.FirstOrder | tpch/dbgen/driver_test.go:13-14 | customer, date and number of lines of the first order |
| FirstRows.FirstLine | tpch/dbgen/driver_test.go:27-28 | part, supplier, quantity, price, discount, tax, instructions and mode of its first line |
| FirstRows.FirstLineDates | tpch/dbgen/driver_test.go:27-28 | the dates, the status and the return flag of that line |
| FirstRows.SecondOrderTotal | tpch/dbgen/driver_test.go:13-15 | the second order, with its one line, total and status |
| FirstRows.FirstKeys | tpch/dbgen/driver_test.go:14-23 | keys of the first ten orders |
| FirstRows.ThirdOrderThirdDates | tpch/dbgen/driver_test.go:27-37 | the dates and the status of the third line of the third order, and its return flag, the third that its order draws |
| FirstRows.ShownAmounts | tpch/dbgen/driver_test.go:69-98 | amounts as the files show them |
| Money.DigitsRead | tpch/dbgen/misc.go:219 | a number is recovered from its digits |
| Money.MoneyRead | tpch/dbgen/misc.go:213-220 | every amount, of either sign, is recovered from its text |
| SqlSink.RetryExactlyOnce | pkg/sink/sql.go:150-199 | with a unique key and fresh keys, success means inserted once, and failure at most once, from every state of the protocol |
| SqlSink.RetryRejected | pkg/sink/sql.go:165-179 | a batch the unique key does not admit is never inserted |
| SqlSink.ExactlyOnceIff | pkg/sink/sql.go:167-177 | success means exactly-once delivery for every behaviour of the server if and only if the table has a unique key and the batch is fresh, or nothing is retried |
| SqlSink.InsertedTwice | tpcc/ddl.go:490-499 | without a unique key a lost answer and a retry insert the batch twice and report success |
| SqlSink.TakenForInserted | pkg/sink/sql.go:173-177 | when other rows hold the keys, a lost connection and a retry report success without inserting |
| SqlSink.AtMostOnce | pkg/sink/sql.go:135-148 | a flush leaves a table with a unique key with the batch at most once, whatever it returns |
| SqlSink.RefusedFlush | pkg/sink/sql.go:150-199 | a batch that is refused n times and then accepted is inserted if and only if its error is transient and there are at least n retries; otherwise the table stays as it was |
| SqlSink.CancelledFlush | pkg/sink/sql.go:180-199 | a cancellation, during an attempt or in the pause, ends the flush after that attempt |
| SqlSink.TestedClasses | pkg/sink/sqlstate_test.go:198-252 | the classes of the errors that the tests list |
| SqlSink.PermanentClasses | pkg/sink/sqlstate.go:74-80 | data errors, integrity violations, invalid transaction states, syntax, system and internal errors are never retried |
| SqlSink.Sink.ExecWithRetry | pkg/sink/sql.go:150-199 | the retry loop follows the protocol |
| SqlSink.Sink.Flush | pkg/sink/sql.go:140-148 | empties the buffer whatever happens and sends it by the protocol |
| SqlSink.Sink.WriteRow | pkg/sink/sql.go:115-133 | buffers the row and flushes when the batch is full |
| SqlSink.LoadRows | tpcc/load.go:154-196 | with a unique key and fresh keys, or without retries, success means that the table gained exactly the rows written, in order, and failure that it gained a prefix of them |
| SinkLoading.ListedTable | tpcc/load.go:154-196 | rows that list a table, one for each key, form that table |
| SinkLoading.LoadTable | tpcc/load.go:154-196 | for any number of retries, success means that the server holds exactly the keyed table |
| SinkLoading.LoadHistory | tpcc/load.go:199-226 | without retries, success means that the server holds exactly the history |
| SinkLoading.LoadDatabase | tpcc/load.go:22-340 | without retries, success of all sinks means that the server holds exactly the loaded database |
| SinkLoading.RetriedHistoryFailsCheck | pkg/sink/sql.go:150-199 | with retries, the loss of one answer doubles the last batch of the history although every sink reports success, and condition 3.3.2.8 then fails for its warehouse |
| ConcurrentSink.ConsumerStepKeepsInv | pkg/sink/concurrent.go:50-70 | the steps of a consumer keep the invariant |
| ConcurrentSink.ProducerStepKeepsInv | pkg/sink/concurrent.go:72-115 | the steps of WriteRow and Flush keep the invariant |
| ConcurrentSink.RunKeepsInv | pkg/sink/concurrent.go:50-115 | in every interleaving the wait group counts the rows being sent, queued and held, and each received row is in order at exactly one consumer or sink |
| ConcurrentSink.FlushAfterHandover | pkg/sink/concurrent.go:103-114 | downstream flushes happen only when every accepted row was handed to its one sink, in order |
| ConcurrentSink.RowsConserved | pkg/sink/concurrent.go:72-90 | all sinks together then hold the accepted rows, each as often as it was accepted |
| ConcurrentSink.WaitingProgresses | pkg/sink/concurrent.go:96-104 | while a flush waits, some consumer can move |
| ConcurrentSink.ConsumerStepNearsEnd | pkg/sink/concurrent.go:50-70 | every consumer step brings the end of the wait one step nearer |
| ConcurrentSink.FlushEnds | pkg/sink/concurrent.go:96-104 | from every reachable state, the runs of the consumers while a flush waits are bounded, and each one that cannot go on has emptied the wait group |
| ConcurrentSink.SendEnds | pkg/sink/concurrent.go:79-83 | from every reachable state, each run of the consumers that cannot go on has made room for a blocked send |
| ConcurrentSink.FlushReturns | pkg/sink/concurrent.go:103-114 | in every interleaving, when Flush returns each sink was flushed with everything it holds, and together they hold the accepted rows |
| ConcurrentSink.FlushedOnce | pkg/sink/concurrent.go:106-114 | between the end of the wait and the return of Flush each downstream sink is flushed exactly once |
| ConcurrentSink.FlushingEnds | pkg/sink/concurrent.go:106-114 | from every reachable state, each run of downstream flushes is bounded, and one that cannot go on lets Flush return |
| Measurement.SplitInvertsName | pkg/measurement/measure.go:68-75 | operation and status are recovered from a name if and only if it is a failure or the operation does not end in _ERR |
| Measurement.CreateKeepsInv | pkg/measurement/measure.go:93-118 | creating the histogram of a name and of the other name of its operation, where missing, keeps samples conserved for every name |
| Measurement.RecordKeepsInv | pkg/measurement/measure.go:121-124 | recording into a histogram, detached or not, keeps samples conserved for every name |
| Measurement.TickKeepsInv | pkg/measurement/measure.go:137-154 | a tick keeps windows contiguous and samples conserved, and the next window has every name seen so far |
| Measurement.SamplesConserved | pkg/measurement/measure.go:93-154 | over every interleaving and for any operations, once no worker is measuring, the samples of all intervals of a name, its cumulative samples, and the completed measurements that go by that name are equally many |
| Measurement.NamesDistinctIff | pkg/measurement/measure.go:93-98 | different operations and outcomes go by different names if and only if no operation of the set is named like the failures of another |
| Measurement.CountedApart | pkg/measurement/measure.go:93-98 | without such operations the samples of a name are the measurements of one operation and outcome |
| Measurement.TogetherIff | pkg/measurement/measure.go:93-118 | every run over a set of operations has the two names of each measured operation in the maps both or neither if and only if no operation of the set is named like the failures of another |
| Measurement.ClashingRun | rawsql/workload.go:129 | a success of an operation and then one of the operation named like its failures leave just these two names in both maps |
| Measurement.NamedLikeFailures | cmd/go-tpc/rawsql.go:90-102 | for queries q1 and q1_ERR the second has no failures name, and its success is counted as a failure of the first |
| Partitions.ListAsHash | tpcc/ddl.go:63-79 | partition i lists exactly the warehouses with remainder i, each once |
| Partitions.HashLayoutCovers | tpcc/ddl.go:63-79 | a warehouse is in exactly the partition of its remainder, and a partition is empty exactly when there are too few warehouses |
| Partitions.ListAsRange | tpcc/ddl.go:80-104 | the partitions list every warehouse once, in order, with sizes that differ by at most one |
| Partitions.Ranges | tpcc/ddl.go:105-119 | the bounds are those of parts of the smallest size that holds all warehouses |
| Partitions.RangePart | tpcc/ddl.go:105-119 | partition i holds the warehouses i * size + 1 .. (i + 1) * size |
| Partitions.RangesCover | tpcc/ddl.go:105-119 | every warehouse falls into exactly one range, the one of its quotient |
| Partitions.RangeEmpty | tpcc/ddl.go:110-116 | a partition is empty exactly when it starts after the last warehouse |
| Partitions.SixPartsOfTen | tpcc/ddl.go:110-116 | six parts of ten warehouses leave the sixth empty |
| Placeholders.ReplaceOne | tpcc/rand.go:22 | replacing the first mark and numbering on is numbering from the left, and removes one mark |
| Placeholders.ConvertToPQ | tpcc/rand.go:16-30 | the loop terminates with the query numbered in one pass from the left |
| Placeholders.NoMarkRemains | tpcc/rand.go:19-27 | no mark remains |

## Left out

- The command line, connection set-up, signal handling, progress and log output, CSV files and query plans.
- The SQL engine: isolation levels, locks and concurrent transactions. A run is a sequence of whole transactions.
- Column widths: totals that outgrow DECIMAL(12,2), and the difference between binary floating point on the client and NUMERIC in the procedure; both forms round to the nearest cent.
- ClientTxns.RunPayment: does not write c_data and h_data; the two forms write different text to them (tpcc/payment.go:160-166 and 180, tpcc/procs_pg.go:246-254 and 272), so "the same database" means the same in all other columns.
- ProcTxns.ProcPayment: the same.
- Addresses, names of districts and warehouses, dates of entry: no statement computes with them. NULL in a column that no transaction and no loader leaves NULL is not modelled.
- The collation of first names: listings are ordered by character codes.
- Payments.PaymentFormsAgree: a payment is by id or by name; the id 0, which the client uses for "by name", is never drawn.
- Order-Status and Stock-Level: they only read.
- OrderInput.GenerateItems: repeated draws come from a finite tape, and running out of it is an outcome of its own, where the source draws for ever.
- Loader.RandCustomer: the last names beyond the first 1000 customers are any of the 1000; their distribution is left out.
- Prepare.PrepareAll: runs the threads one after the other, on tables without foreign keys; the loaded predicate does not depend on the order, but concurrent inserts are not interleaved. With foreign keys a thread could fail on a district that another thread has yet to load.
- Streams.Random: the scaling is exact integer arithmetic, where the source divides in floating point; out-of-range stream numbers and the range 0 .. 2^31 - 1 with its 32-bit wrap-around are not modelled.
- Generators.ScaledInRange: about the exact scaling.
- Orders.MakeOrder: requires a scale below 30000. From there on the customer keys of orders and, above it, the part keys of lines come from the 64-bit generator through the same streams, and realigning and skipping step the 31-bit one, so the stream discipline does not hold (`Driver.CustKeysSkippedIff`).
- Driver.MakeRow: for orders, a scale below 30000, as for `Orders.MakeOrder`; other tables have any scale.
- Driver.GenRow: the same.
- Driver.GenTbl: the same; `at` is the function from stream places to rows, passed as a value; the loaders that write the rows are left out, and with them the early return on their errors.
- Driver.GenChunk: the same; and only for the tables of `Driver.SkippableIff`, because for the others it does not hold.
- Driver.DbGen: the same.
- Streams.ARand: characters are known by the draws that spell them five at a time; the alphabet is left out.
- Distributions: the weights and texts of the dbgen tables are parameters, with positive weights and 92 colours (`FirstRows` takes the weights of the tables, all 1); the text pool is a parameter too, and the grammar of its sentences is left out.
- SqlSink: rows are keys with data instead of rendered SQL text; sleeping between attempts is one possible cancellation.
- ConcurrentSink: the one-slot error channel, which may drop errors, and closing.
- Measurement: histogram internals, warm-up, freezing and rendering; histograms are sample counts.
- Partitions: the layouts are lists and bounds instead of SQL text; the default HASH layout is the server's.
