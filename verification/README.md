# A verified model of the blockchain data collection pipeline

Producer tasks walk blocks and push transaction hashes, in batches, to the partitions of a Kafka topic. A Redis sorted
set counts the messages of each partition and throttles the producers. Consumers take messages, ask the node for the
transaction, and insert rows into tables where the first write of a key wins. This project models these three parts in
Dafny and proves what holds over every input, every run and every interleaving. `dafny verify dfyconfig.toml` checks
all of it.

## How it is laid out

* **Flow control** - `Redis`, `KafkaProducer` (the limiter, the partition chooser and the batch sender as methods of a
  class, proved against specification functions), `Batching` (whole runs of one producer), `FlowControl` (k tasks and
  any number of consumers as a step system with one step per await), `FlowInvariants` (counters and capacity),
  `CapacityReached`, `LoadBalance`, and `Watchdog` (the two-event handshake).
* **Transactions to tables** - `TransactionEvents` (the mappers), `Database` (first-write-wins tables and the keyless
  bag), `TxProcessor` (the processors as methods of a class), `Selection` and `SelectionPromises`, `Amounts`,
  `Ledger`, `LiquidityRun`, `Confluence`, `TableRows` (the tables after any deliveries, field by field), `FirstRows`,
  `SupplyOrder`, `EventCodec` and `Consumer`.
* **The whole run** - `Producer` (the block loop), `Pipeline` (the step system of tasks, topic, consumers and tables),
  `PipelineRefinement`, `PipelineTargets` (what the sequential loop writes), `PipelineTheorems` (agreement with it),
  `PipelineTables` (the final tables, field by field), `PipelineLosses` (what failed sends leave out),
  `PipelineOrder`, and `PipelineMethods` (the loops of the two classes, one after the other, are the sequential loop).
* **The whole run with its flow control** - `Throttled` couples `Pipeline` with `FlowControl`: each step of the
  coupled system is a step of one or of both. `ThrottledInvariants`, `ThrottledMeasure`, `ThrottledProgress`,
  `ThrottledSettling`, `ThrottledDraining` (exactly which states can still be drained), `ThrottledHang` (exactly which
  scans can hang), `ThrottledRewards` and `ThrottledOutcome` (exactly when the outcome is determined).
* `Sums`, `Deltas`, `Sequences` and `Options` hold general facts.

## What the results rest on

* The node is a function: asking again about a block, hash or reward gives the same answer. Different logs of a
  receipt have different indices (`DistinctIndices`), and the block asked for by number has that number. That a
  transaction listed in a block says so itself is needed for `PipelineOrder.BlockBeforeTransaction` only.
* A Python set of addresses is walked in an arbitrary order (`Walks`); results hold for every order.
* Reading the round-robin counter and advancing it is one step, and the number of partitions of a run is constant and
  at least 1. Which of several members of equal score comes first is left to Redis.
* A message that was sent can come back to a partition at any time, and a consumer can stop after any number of its
  inserts, its message coming back. That a message always comes back is an assumption: when a handler raises, the
  consumer disconnects (src/data_collection/app/kafka/manager.py:372-374), and the client may by then have committed
  the position behind the message.
* In `FlowControl`, timeouts, missing metadata and refused appends are steps; `Pipeline` has messages that are lost
  before the broker. `Throttled*` is about sends that succeed.
* Recording the block reward: a FULL task inserts the reward, a PARTIAL task inserts 0. Where both scan a new block
  with a non-zero reward, the table depends on who comes first.
* A supply key is in dispute when contracts handled in one transaction have different amounts to record under it
  (`Confluence.Determined` says that none have). The row then depends on how an address set is walked. These two are
  the exact condition in `ThrottledOutcome.DeterministicExactlyWhen`; it holds, for instance, when all tasks scan in
  FULL mode, or there is one task and no transaction involves two configured tokens.

## Where the code differs from what one would expect

* After a stall, a total of exactly 0 does not release the limiter, which then polls without sleeping. A producer
  whose call stalled can so wait for ever with blocks still to read: `ThrottledHang.CanHangExactlyWhen` says for which
  scans, `ThrottledDraining.DrainableExactlyWhenNotHung` in which states.
* The supply row is inserted under the address of the last event of the receipt, not of the contract
  (`Ledger.AttributedExactlyWhen`, `Ledger.SupplyRowCanBeMisattributed`); two tokens minted in one transaction share
  one row (`SupplyOrder.TwoMintsCollide`).
* A transfer from one burn address to another still yields a burn event, because the branch written for it does
  nothing and the next one is entered (`Ledger.SupplyIsExactUnlessBurntTwice` says when this matters).
* The docstring of the partial processor (src/data_collection/app/consumer/tx_processor.py:237-251) promises the
  events of every configured address. With a configured recipient only that contract's events are looked at
  (`SelectionPromises.RecipientHidesOtherEmitters`, `SelectionPromises.AllPromisedSelectedExactlyWhen`). And a log of
  a configured contract is not enough for a transaction to be saved, as docs/configuration.md:79-82 has it: without a
  configured recipient or new contract, one of those logs must decode to an allowed event
  (`SelectionPromises.UnwantedLogIsNotEnough`), and even that does not help a transaction that creates another
  contract (`SelectionPromises.CreationDropsPromisedLogs`, `SelectionPromises.DocumentedSavedExactlyWhen`).
* The load balance between several tasks needs every partition to have a counter
  (`LoadBalance.SpreadHoldsExactlyWhen`, `LoadBalance.FailedSendBreaksBalance`); the capacity limit can be exceeded by
  one list per task (`CapacityReached.CapacityIsReached`).
* The watchdog is right only if the timeout task gets to run between two `set()` calls
  (`Watchdog.LaggingWatchdogCanFireDuringAHandler`).

## Model

| member | source | states |
|---|---|---|
| `PipelineTheorems.EveryDrainedRunEqualsTheSequentialLoop` | src/data_collection/app/producer.py:115-148 | End to end: any interleaving of FULL, PARTIAL and GET_LOGS producer tasks with any number of consumers, with redelivery and with consumers stopping in the middle of a handler, ends (once drained, no message lost) with the row the plain sequential loop leaves, from any starting tables, under every key that is there already or under which that loop writes one row only |
| `PipelineTargets.AgreesExactlyWhen` | src/data_collection/app/db/manager.py:42-79 | Which keys those are: a block if and only if its reward is 0 or the tasks that reach it are all FULL or all not; a supply key if and only if no partial task lists its transaction or no contracts have different amounts for it; every other key |
| `PipelineTargets.TargetsAre` | src/data_collection/app/producer.py:115-142 | The rows of the sequential loop are exactly those of the blocks its tasks reach and of the messages they list |
| `PipelineTables.BlocksAtTheEnd` | src/data_collection/app/producer.py:115-129 | What a complete run leaves, in the chain's own terms: the new blocks are exactly those a task reaches, with hash and header; the reward is the node's if FULL tasks reach the block, 0 if only others do |
| `PipelineTables.TransactionsAtTheEnd` | src/data_collection/app/consumer/tx_processor.py:179-197 | The new transactions are exactly those that FULL or GET_LOGS tasks list, and those PARTIAL tasks list that concern the configuration, with the node's data, the gas used, and gas price times gas used as the fee |
| `PipelineTables.LogsAtTheEnd` | src/data_collection/app/consumer/tx_processor.py:199-206 | The new logs are exactly those of such whole transactions and, in partial mode, the selected ones, with emitter and payload |
| `PipelineTables.RowsAtTheEnd` | src/data_collection/app/db/manager.py:153-323 | For every table but that of the blocks: exactly the rows the listed messages lead to |
| `ThrottledOutcome.DeterministicExactlyWhen` | src/data_collection/app/producer.py:115-148 | The condition of the end-to-end result is exact, with the limiter in place and for all keys of all tables: every drained run ends in the sequential tables if and only if no two tasks insert different rewards for the same new block and no contracts dispute a new supply key of a transaction that a partial task lists |
| `ThrottledOutcome.DeterministicAtExactlyWhenCertain` | src/data_collection/app/consumer/tx_processor.py:161-166 | The same for each key by itself |
| `ThrottledOutcome.RowCanWin` | src/data_collection/app/db/manager.py:258-275 | Each row the sequential loop writes under a new key is the one left by some complete run, allowed by the limiter |
| `ThrottledRewards.TaskCanWin` | src/data_collection/app/producer.py:115-148 | For each task that reaches a new block there is a complete run, allowed by the limiter, in which that task's row is the one stored |
| `PipelineLosses.NothingMissingExactlyWhen` | src/data_collection/app/kafka/manager.py:215-270 | With refused appends and timeouts: a drained run leaves the sequential rows under all those keys if and only if every row of a lost message is also one of a message that was sent |
| `PipelineLosses.StoredExactlyWhenSent` | src/data_collection/app/kafka/manager.py:215-270 | Once drained, a new row other than a block's is stored if and only if a message that leads to it reached the broker |
| `PipelineTheorems.DrainedRow` | src/data_collection/app/kafka/manager.py:263-270 | With losses the stored rows are a part of the sequential loop's; each missing one belongs to a lost message |
| `PipelineTheorems.ConservesRun` | src/data_collection/app/producer.py:115-148 | In every reachable state a row of the sequential loop is still pending (in a task, the topic or a handler), stored, or lost with its message, and no other row is; redelivery and stops included |
| `PipelineTheorems.NothingElseIsEverStored` | src/data_collection/app/consumer/__init__.py:84-103 | In every reachable state, drained or not, losses or not, each stored row (under those keys) is a row of the sequential loop's tables, with the same contents |
| `PipelineRefinement.StepConserves` | src/data_collection/app/kafka/manager.py:215-256 | One step of any kind (read a block, send a batch, lose a message, fetch, insert one row, return, redeliver, stop) keeps that invariant |
| `PipelineRefinement.ProduceConserves` | src/data_collection/app/producer.py:115-129 | Reading a block and inserting its row: what was pending or stored stays so, for each row |
| `PipelineRefinement.SendConserves` | src/data_collection/app/kafka/manager.py:198-262 | Sending a batch moves pending rows from the task to the topic, losing and adding none |
| `PipelineRefinement.LoseConserves` | src/data_collection/app/kafka/manager.py:219-236 | A message refused by its batch takes exactly its own rows with it |
| `PipelineRefinement.FetchConserves` | src/data_collection/app/kafka/manager.py:318-334 | Fetching a message moves its rows from the topic to the handler, in whatever order the address set is walked |
| `PipelineRefinement.InsertRowConserves` | src/data_collection/app/db/manager.py:81-118 | One INSERT ... ON CONFLICT DO NOTHING turns a pending row into a stored row |
| `PipelineRefinement.CrashConserves` | src/data_collection/app/kafka/manager.py:318-337 | A consumer that stops half way through a handler loses no row |
| `PipelineRefinement.RedeliverConserves` | src/data_collection/app/kafka/manager.py:318-337 | A message that comes again adds no row to those of the sequential loop |
| `PipelineMethods.ProduceThenConsume` | src/data_collection/app/producer.py:115-148 | The states that the producer's loop and then the consumer's loop leave: consuming the encoded stream of a scan in any order, with repeats, gives the sequential tables, and no event raises |
| `PipelineMethods.ScanSplits` | src/data_collection/app/producer.py:115-142 | Block row and messages interleaved, or all block rows first: the same rows are written |
| `PipelineMethods.StreamDecodes` | src/data_collection/app/producer.py:131-140 | Each event of a scan's stream decodes to a message of a block of that scan, in the scan's mode |
| `Throttled.RunIsAPipelineRun` | src/data_collection/app/kafka/manager.py:105-144 | A run of the pipeline with limiter, partition choice and counters is a run of the pipeline without them, so every result about its reachable states carries over |
| `Throttled.RunIsAFlowRun` | src/data_collection/app/kafka/manager.py:198-262 | The same run is a run of the flow control alone, so its invariants carry over too |
| `ThrottledInvariants.LinkedRun` | src/data_collection/app/kafka/manager.py:198-262 | In every reachable state both halves tell the same story: backlogs are queue lengths, calls are about the messages their task still has, counters account for what is about |
| `ThrottledInvariants.TopicWithinCapacity` | src/data_collection/app/kafka/manager.py:105-144 | The queues of the whole pipeline hold at most 1000*n + k*L messages, apart from those that came back uncounted |
| `ThrottledMeasure.StepMakesProgress` | src/data_collection/app/producer.py:115-148 | With the limiter: every step that is neither a fault nor a poll that does not admit its call brings the end closer; such a poll leaves what is ahead unchanged |
| `ThrottledProgress.HungForever` | src/data_collection/app/kafka/manager.py:108-140 | Once a call has stalled, the total is 0, nothing is queued, fetched or uncounted and every other task is stalled too or has nothing more to send, no continuation without faults ever releases the call |
| `ThrottledDraining.DrainableExactlyWhenNotHung` | src/data_collection/app/kafka/manager.py:108-140 | From a reachable state, whatever faults led to it, the pipeline can be drained without further faults if and only if it is not hung in that sense |
| `ThrottledDraining.StalledCallIsReleasedExactlyWhen` | src/data_collection/app/kafka/manager.py:108-140 | A stalled call is released by some continuation without faults if and only if the pipeline is not hung |
| `ThrottledDraining.HungAlone` | src/data_collection/app/kafka/manager.py:138-140 | For a single task, hung means: total 0, every partition empty, nothing fetched and not decremented; another task that has messages to send is what would release it |
| `ThrottledDraining.OnlyDrainedStops` | src/data_collection/app/kafka/manager.py:318-334 | A state has no step left but faults if and only if it is drained (while hung, the steps left are polls) |
| `ThrottledHang.CanHangExactlyWhen` | src/data_collection/app/kafka/manager.py:108-140 | For any number of tasks: some run hangs, and then even one without faults, if and only if some task has a list of messages to send before which more than 1000 messages per partition can be sent, by it and all other tasks together |
| `ThrottledHang.ExplainedRun` | src/data_collection/app/kafka/manager.py:108-140 | In every reachable state a call has only stalled if more messages than that could have been sent before it |
| `PipelineOrder.BlockBeforeTransaction` | src/data_collection/app/producer.py:121-142 | In every reachable state each FULL or PARTIAL message ever sent has its block row; only sent messages are in the topic and in handlers, and every new transaction row belongs to one |
| `PipelineOrder.BlocksFormIntervals` | src/data_collection/app/producer.py:115-148 | In every reachable state, from any starting tables, the stored blocks are the starting ones and the contiguous intervals from each task's first block to the block it reads next |
| `PipelineOrder.HandlerWritesLedToBy` | src/data_collection/app/consumer/tx_processor.py:340-395 | Handling a message inserts transaction rows for its own hash only, and no block row |
| `FlowInvariants.CountersAreConserved` | src/data_collection/app/kafka/manager.py:239-256 | In every reachable state and for every partition: score = broker backlog - delivered but not yet counted - never counted (timeouts, missing metadata, redelivery) + fetched but not yet decremented |
| `FlowInvariants.CountersAgreeAtRest` | src/data_collection/app/kafka/manager.py:318-330 | At rest a counter equals its backlog if and only if nothing entered that partition uncounted |
| `FlowInvariants.CountersCanBeNegative` | src/data_collection/app/db/redis.py:43-49 | A run in which a score reaches -1 |
| `FlowInvariants.CapacityInEveryRun` | src/data_collection/app/kafka/manager.py:105-144 | In every reachable state of k calls of at most L messages: Redis total + what admitted calls still owe <= 1000*n + k*L, and the broker's true backlog obeys the same bound apart from uncounted messages |
| `CapacityReached.CapacityIsReached` | src/data_collection/app/kafka/manager.py:105-144 | That bound is the best possible: from the empty topic some run meets it with equality |
| `FlowInvariants.WithinCapacityStep` | src/data_collection/app/kafka/manager.py:108-144 | One step of any process keeps the capacity invariant, although the total compared may be out of date |
| `FlowInvariants.AdmitCall` | src/data_collection/app/kafka/manager.py:108-139 | At a total within capacity a call is admitted at its first reading |
| `FlowControl.SumsAfterStep` | src/data_collection/app/kafka/manager.py:198-262 | How one step moves the in-flight, delivered, owed and fetched sums: only the moving process changes its share |
| `LoadBalance.SpreadStaysWithinKBatches` | src/data_collection/app/kafka/manager.py:152-165 | k tasks, quiet consumers, all counters present: score(p) + inflight(p) <= score(q) + k*1024 for all partitions in every reachable state, failed sends included |
| `LoadBalance.BalancedRun` | src/data_collection/app/kafka/manager.py:152-165 | The same bound, plus the number of decrements, is an inductive invariant when consumers run as well |
| `LoadBalance.SpreadFromAnEmptyTopic` | src/data_collection/app/kafka/manager.py:152-165 | One task from an empty topic, no send failing: the spread never exceeds one batch (plus decrements) from the first batch on, absent counters read as 0 |
| `LoadBalance.SpreadHoldsExactlyWhen` | src/data_collection/app/kafka/manager.py:152-165 | From an empty topic, with quiet consumers and no failed send, the spread stays within k*1024 for every list if and only if there is one partition or one task |
| `LoadBalance.MissingCounterBreaksBalance` | src/data_collection/app/db/redis.py:35-41 | For n >= 2 partitions and k >= 2 tasks a run reaches m*1024 in every partition but one that has no counter, for every m |
| `LoadBalance.FailedSendBreaksBalance` | src/data_collection/app/kafka/manager.py:249-260 | For a single task one failed send on the first lap does the same: that partition is never chosen again |
| `LoadBalance.SpreadOnceCounted` | src/data_collection/app/kafka/manager.py:249-270 | Only failures before every partition is counted do: from then on a single task keeps the bound whatever fails |
| `Batching.ChoicesOverARun` | src/data_collection/app/kafka/manager.py:152-165 | The first n choices of a run are 0..n-1, every later one has minimum score at that moment, and all lie in 0..n-1 |
| `Batching.RunStaysGood` | src/data_collection/app/kafka/manager.py:152-165 | The counter stays in -1..n-1 and counter keys in 0..n-1 over every run |
| `Batching.BatchesCoverTheList` | src/data_collection/app/kafka/manager.py:203-236 | Without failures the batches are non-empty, at most 1024 long, ceil(len/1024) in number, and join to the input list |
| `Batching.StreamIsPartitioned` | src/data_collection/app/kafka/manager.py:198-262 | Over a producer's whole run without failures, the partitions together gain exactly the produced stream as a multiset, each gains a subsequence of it in production order, and its counter grows by as much |
| `Batching.PartitionsAndCounters` | src/data_collection/app/kafka/manager.py:238-260 | With failures: a partition grows by its stored batches in order, its counter by as much short of the unacknowledged ones |
| `Batching.RoutedInOrder` | src/data_collection/app/kafka/manager.py:203-256 | What a partition receives keeps production order, with failures too |
| `KafkaProducer.LimitTopicCapacity` | src/data_collection/app/kafka/manager.py:108-144 | Over any readings the call is admitted at exactly the first one that is non-zero and within capacity, or zero with no earlier over-capacity reading; it has slept once per earlier over-capacity reading; otherwise it is still waiting |
| `KafkaProducer.FillBatch` | src/data_collection/app/kafka/manager.py:219-236 | The batch has as many messages as positions are accepted, and the message of each accepted position stands after those accepted before it |
| `Batching.OnlyRefusedAreMissing` | src/data_collection/app/kafka/manager.py:217-236 | Without a timeout the batches of a whole call together hold the messages in order, save exactly those refused |
| `Batching.AttemptsAre` | src/data_collection/app/kafka/manager.py:203-270 | Failures included: batch j holds the accepted messages of the positions 1024*j up to 1024*(j+1) or the end; none is skipped, a timeout ends the call, and nothing else does |
| `Batching.AckedPartitionsAre` | src/data_collection/app/kafka/manager.py:249-262 | The result names the partition of each acknowledged batch, in order, and no others |
| `KafkaProducer.KafkaProducerManager.constructor` | src/data_collection/app/kafka/manager.py:94-103 | The round robin starts at 0 with nothing sent |
| `KafkaProducer.KafkaProducerManager.ChoosePartition` | src/data_collection/app/kafka/manager.py:152-165 | The answer is the round-robin counter, or a member of minimum score (0 if none), always a partition; the counter walks 0..n-1 and then stays at -1 |
| `KafkaProducer.KafkaProducerManager.Submit` | src/data_collection/app/kafka/manager.py:238-260 | One batch is one step of the specification: choice, storage and count |
| `KafkaProducer.KafkaProducerManager.SendChunks` | src/data_collection/app/kafka/manager.py:198-270 | The batches attempted are those of the list up to the first timeout, each a step; the result lists the partitions acknowledged, or nothing after a timeout |
| `KafkaProducer.KafkaProducerManager.SendBatch` | src/data_collection/app/kafka/manager.py:197-270 | As decorated: nothing is sent before the limiter lets the call through |
| `Redis.RedisManager.GetNTransactions` | src/data_collection/app/db/redis.py:27-33 | The sum of all scores, 0 for an empty set |
| `Redis.RedisManager.GetLowestScorePartition` | src/data_collection/app/db/redis.py:35-41 | Nothing for an empty set, else a member of minimum score |
| `Redis.RedisManager.IncrByNTransactions` | src/data_collection/app/db/redis.py:47-49 | One score and the total change by the increment, an absent member counting as 0 |
| `Redis.RedisManager.DecrTransactions` | src/data_collection/app/db/redis.py:43-45 | One score and the total go down by one |
| `Watchdog.HandshakeHolds` | src/data_collection/app/kafka/manager.py:299-334 | Over any schedule in which no notification is lost: whenever the timeout task is blocked it waits for a message exactly when no message is being handled; the timeout can only fire when idle, and is armed when idle |
| `Watchdog.PromptWatchdogNeverFiresDuringAHandler` | src/data_collection/app/kafka/manager.py:299-316 | If the timeout task runs until it blocks after each set(), the handshake holds in every reachable state, however long handlers take |
| `Watchdog.LosingANotificationIsWhatBreaksIt` | src/data_collection/app/kafka/manager.py:318-334 | A set() leaves a watchdog that settles in step with the listener if and only if the event was not still set |
| `Watchdog.LaggingWatchdogCanFireDuringAHandler` | src/data_collection/app/kafka/manager.py:299-316 | A schedule in which two sets coalesce and the timeout fires during a handler |
| `Watchdog.SettleIsARun` | src/data_collection/app/kafka/manager.py:302-312 | Left alone, the timeout task reaches a wait |
| `TransactionEvents.PassesArePermutation` | src/data_collection/app/web3/transaction_events/__init__.py:13-27 | The per-mapper passes yield the same multiset of events as one in-order classification of the logs |
| `TransactionEvents.EventsComeFromLogs` | src/data_collection/app/web3/transaction_events/__init__.py:13-27 | An event is yielded if and only if some log of the receipt classifies to it |
| `TransactionEvents.Erc20MappersClassify` | src/data_collection/app/web3/transaction_events/erc20.py:18-89 | The three ERC20 mappers together classify one log as the reference does, burn-to-burn transfers included |
| `TransactionEvents.PairMappersClassify` | src/data_collection/app/web3/transaction_events/uniswap_pair.py:19-78 | The three pair mappers together classify one log as the reference does |
| `TransactionEvents.MappersClassify` | src/data_collection/app/web3/transaction_events/erc721.py:18-53 | For every category, ERC721 and factory included, the registered mappers together classify one log as the reference does |
| `TableRows.DeliveryLeadsTo` | src/data_collection/app/consumer/tx_processor.py:97-395 | Exactly which rows handling one message inserts, in each mode and table, with all fields written out |
| `TableRows.TransactionRowsAfterRun` | src/data_collection/app/consumer/tx_processor.py:179-197 | After any deliveries a new transaction row is there if and only if its hash was delivered in FULL or GET_LOGS mode, or in PARTIAL mode and the configuration is concerned; with the node's data, the gas used, and gas price times gas used as the fee |
| `TableRows.LogRowsAfterRun` | src/data_collection/app/consumer/tx_processor.py:199-206 | A new log row is there if and only if the whole transaction was delivered and has it, or it was delivered in PARTIAL mode and the log is selected; with that log's emitter and payload |
| `TableRows.WholeTransactionsAreStored` | src/data_collection/app/consumer/tx_processor.py:383-395 | Once delivered in FULL or GET_LOGS mode, a transaction is stored with every log of its receipt |
| `TableRows.NftRowsAfterRun` | src/data_collection/app/db/manager.py:182-209 | A new NFT row is there if and only if a partial delivery has such a transfer of a handled contract that allows it; with sender, receiver and token |
| `TableRows.SupplyRowsAfterRun` | src/data_collection/app/db/manager.py:258-275 | A new supply row is there if and only if a partial delivery handles a contract with an amount not 0, under the emitter of the last Redeem, Issue or Transfer log; with such an amount |
| `TableRows.NoBlockRowsAfterRun` | src/data_collection/app/consumer/__init__.py:84-103 | Handling messages inserts no block row, in any mode |
| `TableRows.InternalsAfterRun` | src/data_collection/app/consumer/tx_processor.py:208-216 | The bag of internal transactions grows by exactly the traces of the saved deliveries, each internal transaction with its hash, as often as it is delivered |
| `TableRows.ProcessedIs` | src/data_collection/app/consumer/__init__.py:95-103 | Processing returns True if and only if the transaction is saved: always for a whole transaction, in partial mode if the configuration is concerned |
| `TxProcessor.TransactionProcessor.HandleTransactionEvents` | src/data_collection/app/consumer/tx_processor.py:97-177 | The saved indices and the whole new state of the tables: NFT rows in event order, then at most one supply and one pair row |
| `TxProcessor.TransactionProcessor.WalkEvents` | src/data_collection/app/consumer/tx_processor.py:112-158 | The event loop marks the relevant events' indices, accumulates their amounts, and inserts their NFT transfers |
| `TxProcessor.TransactionProcessor.HandleEvent` | src/data_collection/app/consumer/tx_processor.py:126-158 | What one event adds to the three accumulators, and its NFT row |
| `TxProcessor.TransactionProcessor.HandleTransaction` | src/data_collection/app/consumer/tx_processor.py:179-216 | The transaction row, the rows of its selected logs and all its internal transactions are inserted, in that order |
| `TxProcessor.TransactionProcessor.HandleLogs` | src/data_collection/app/consumer/tx_processor.py:198-206 | Exactly the logs whose index is selected are inserted |
| `TxProcessor.TransactionProcessor.HandleInternals` | src/data_collection/app/consumer/tx_processor.py:208-216 | Every internal transaction of the trace is appended |
| `TxProcessor.TransactionProcessor.ProcessRegularContractInteraction` | src/data_collection/app/consumer/tx_processor.py:253-306 | A configured recipient is handled alone and always saved; otherwise the configured emitters are, and saving needs a marked log |
| `TxProcessor.TransactionProcessor.ProcessContractCreation` | src/data_collection/app/consumer/tx_processor.py:308-338 | A configured new contract's events are handled and the transaction saved; otherwise nothing |
| `TxProcessor.TransactionProcessor.ProcessPartial` | src/data_collection/app/consumer/tx_processor.py:340-373 | Partial mode: the whole new state of the tables and whether the transaction was saved |
| `TxProcessor.TransactionProcessor.ProcessFull` | src/data_collection/app/consumer/tx_processor.py:376-395 | Full mode saves every transaction with all its logs |
| `TxProcessor.IndicesAreThoseOfRelevantEvents` | src/data_collection/app/consumer/tx_processor.py:114-124 | An index is saved if and only if some event of that contract and of an allowed kind has it |
| `Selection.PartialSelectionIs` | src/data_collection/app/consumer/tx_processor.py:253-306 | Declarative selection: the saved indices are those of the allowed, decodable logs of the recipient if it is configured, else of all configured emitters; the transaction is saved if and only if the recipient (or new contract) is configured or such a log exists; for every order of walking the address set |
| `Selection.WantedIs` | src/data_collection/app/web3/parser.py:45-55 | Which logs decode to an allowed event, category by category and kind by kind |
| `SelectionPromises.AllPromisedSelectedExactlyWhen` | src/data_collection/app/consumer/tx_processor.py:237-251 | In a saved transaction every allowed, decodable log of a configured contract is selected if and only if neither recipient nor new contract is configured, or all such logs are its own |
| `SelectionPromises.RecipientHidesOtherEmitters` | src/data_collection/app/consumer/tx_processor.py:293-304 | An input where one is not: a configured recipient, and a transfer of another configured token |
| `SelectionPromises.DocumentedSavedExactlyWhen` | src/data_collection/app/consumer/tx_processor.py:237-251 | Of the transactions documented to be saved, exactly those are whose recipient or new contract is configured or, with another recipient, that have an allowed, decodable log of a configured contract |
| `SelectionPromises.AddressedIsSaved` | src/data_collection/app/consumer/tx_processor.py:293-338 | A configured recipient or new contract is enough for a transaction to be saved, whatever its logs |
| `SelectionPromises.UnwantedLogIsNotEnough` | src/data_collection/app/consumer/tx_processor.py:290-291 | An input where a documented transaction is not saved: another recipient, and a log of a configured token with no allowed event |
| `SelectionPromises.CreationDropsPromisedLogs` | src/data_collection/app/consumer/tx_processor.py:308-338 | Another: the transaction creates a contract that is not configured, and is dropped with an allowed event of a configured token |
| `Selection.SavedIndicesOfOneContract` | src/data_collection/app/consumer/tx_processor.py:109-124 | For one contract: exactly the indices of its logs that decode to an allowed event |
| `Selection.SelectionWritesAre` | src/data_collection/app/consumer/tx_processor.py:253-306 | The rows inserted for events are those of the handled contracts, no others |
| `Selection.TransactionWritesAre` | src/data_collection/app/consumer/tx_processor.py:179-206 | The keyed rows of saving a transaction are its own row and one per selected log |
| `Selection.NftWritesAre` | src/data_collection/app/consumer/tx_processor.py:148-158 | NFT rows are exactly those of relevant NFT transfer events |
| `Selection.AmountsAreThoseOfTheLogs` | src/data_collection/app/consumer/tx_processor.py:112-158 | All accumulated amounts are independent of the order of the passes |
| `Ledger.SupplyAgreesWithTheLedger` | src/data_collection/app/consumer/tx_processor.py:112-131 | The recorded supply change equals the change of the total held outside burn addresses when the contract's Transfer, Issue and Redeem logs are replayed in order on any balances, minus burn-to-burn values |
| `Ledger.SupplyIsExactUnlessBurntTwice` | src/data_collection/app/web3/transaction_events/erc20.py:33-59 | It equals the ledger's change if and only if no log moves a positive value between two burn addresses |
| `Ledger.SupplyRowIs` | src/data_collection/app/consumer/tx_processor.py:161-166 | A supply row is inserted if and only if the amount of the logs is not 0, under the emitter of the last Redeem log of the receipt, else of the last Issue log, else of the last Transfer log |
| `Ledger.AttributedExactlyWhen` | src/data_collection/app/consumer/tx_processor.py:161-166 | The amount is recorded for the contract itself if and only if it emitted that last log |
| `Ledger.OwnerIs` | src/data_collection/app/web3/transaction_events/__init__.py:26-27 | That emitter by position in the receipt: no Redeem log comes after it; without any, no Issue log; without either, no Transfer log |
| `Ledger.LastEventIsTheOwners` | src/data_collection/app/web3/transaction_events/__init__.py:26-27 | The last event of the passes over an ERC20 receipt comes from that log |
| `Ledger.SupplyRowCanBeMisattributed` | src/data_collection/app/consumer/tx_processor.py:161-166 | A mint followed by another token's transfer is recorded for the other token, and never for the minting one |
| `Amounts.AmountsAreRecorded` | src/data_collection/app/consumer/tx_processor.py:112-158 | The accumulators end as sums over the logs, kind by kind: for a token its allowed mints - burns, for a pair its allowed mints - burns + swap-ins - swap-outs, for other categories 0 |
| `LiquidityRun.LiquidityRowsSumToTheLogs` | src/data_collection/app/db/manager.py:305-323 | Over any deliveries with repeats: each amount column of a pair's rows sums to mints - burns + swap-ins - swap-outs, of the kinds allowed, over the distinct transactions that handle it |
| `LiquidityRun.PairRowsAfterRun` | src/data_collection/app/consumer/tx_processor.py:168-174 | After any deliveries a pair row exists if and only if the transaction handles the pair and its amounts are not both 0, and then holds exactly the amounts of its logs |
| `Confluence.TablesDependOnTheDeliveredSet` | src/data_collection/app/consumer/__init__.py:84-103 | Confluence and idempotence: two sequences delivering the same set of (mode, hash) pairs, with repeats, reordering and any walks, leave the same row under every key, undisputed supply keys included |
| `SupplyOrder.ConfluentExactlyWhen` | src/data_collection/app/consumer/tx_processor.py:161-166 | Its exact condition: for all tables, deliveries and walks the row under a key depends on the delivered set only, if and only if no two handled contracts have different amounts to record under it (only supply keys can fail) |
| `SupplyOrder.WalkDecides` | src/data_collection/app/consumer/tx_processor.py:270-289 | If two do, one delivery of the transaction on empty tables leaves different supply rows for two walks of its address set |
| `FirstRows.SelectionFirst` | src/data_collection/app/consumer/tx_processor.py:270-289 | A walk that begins with a contract that has an amount for the key inserts that contract's row first |
| `SupplyOrder.TwoMintsCollide` | src/data_collection/app/consumer/tx_processor.py:270-289 | Such an input: two configured tokens mint in one transaction with another recipient; the supply row holds either amount |
| `Confluence.RedeliveryChangesNoRow` | src/data_collection/app/db/manager.py:105-118 | A repeated delivery changes no keyed table at all, the supply table included |
| `Confluence.WritesAreFaithful` | src/data_collection/app/consumer/tx_processor.py:97-216 | Every row any mode writes is determined by its key and the node's answers; a supply row is that of some handled contract with an amount to record under the key |
| `Confluence.FaithfulRowsAgree` | src/data_collection/app/db/manager.py:153-209 | Two such rows under one key are equal, unless contracts dispute the key |
| `Confluence.SameMessageSameWrites` | src/data_collection/app/consumer/tx_processor.py:270-289 | The order in which the address set is walked changes the order of the INSERTs but not their set; where two of them dispute a supply key, the order decides the stored row (SupplyOrder.WalkDecides) |
| `Confluence.InternalTransactionsAreConserved` | src/data_collection/app/db/manager.py:122-151 | The bag of internal transactions grows by the trace length of each delivery for which processing returned True, repeats included |
| `Confluence.DeliveryAppends` | src/data_collection/app/consumer/tx_processor.py:208-216 | One delivery appends its trace if it is processed, else nothing |
| `Database.InsertAllRows` | src/data_collection/app/db/manager.py:42-79 | First write wins over any list of inserts: present rows survive, a new row is one that was written for its key, and a key is present if and only if it was or is written |
| `Database.OrderAndRepetitionDoNotMatter` | src/data_collection/app/db/manager.py:153-180 | Where the writers of a key agree, only the set of writes matters |
| `Database.BagGrowsByAppends` | src/data_collection/app/db/manager.py:122-151 | The keyless table grows by one per append |
| `Database.DatabaseManager.InsertBlock` | src/data_collection/app/db/manager.py:42-79 | Inserts the block's row unless its number is present; nothing else changes |
| `Database.DatabaseManager.InsertTransaction` | src/data_collection/app/db/manager.py:81-118 | The same for a transaction hash |
| `Database.DatabaseManager.InsertInternalTransaction` | src/data_collection/app/db/manager.py:122-151 | Appends, whatever is present |
| `Database.DatabaseManager.InsertTransactionLog` | src/data_collection/app/db/manager.py:153-180 | First write wins per hash and log index |
| `Database.DatabaseManager.InsertNftTransfer` | src/data_collection/app/db/manager.py:182-209 | First write wins per hash and log index |
| `Database.DatabaseManager.InsertContractSupplyChange` | src/data_collection/app/db/manager.py:258-275 | First write wins per address and hash |
| `Database.DatabaseManager.InsertPairLiquidityChange` | src/data_collection/app/db/manager.py:305-323 | First write wins per address and hash |
| `Consumer.DataConsumer.OnKafkaEvent` | src/data_collection/app/consumer/__init__.py:84-103 | The new tables, counters and hash for each kind of event: malformed events change nothing, LOG_FILTER is counted and raises, GET_LOGS goes to the full processor |
| `Consumer.DataConsumer.ConsumeNext` | src/data_collection/app/consumer/__init__.py:84-103 | One turn of the consuming loop accounts for one more delivery, or stops with everything before it accounted for |
| `Consumer.TakenIs` | src/data_collection/app/consumer/__init__.py:105-138 | The deliveries taken are the decoded events before the first that raises, in order, and that one if it is a LOG_FILTER event |
| `Consumer.StopIs` | src/data_collection/app/consumer/__init__.py:105-138 | Consuming fails if and only if some event raises, and stops at the first |
| `Consumer.DataConsumer.ConsumeAll` | src/data_collection/app/consumer/__init__.py:105-138 | The tables and both counters account for exactly the deliveries before the first event that raises; the exit code is 1 if and only if one does |
| `Consumer.DataConsumer.StartConsumingData` | src/data_collection/app/consumer/__init__.py:105-138 | Also: the internal-transaction bag grows by the processed traces, and processed never outgrows consumed |
| `Consumer.ProcessedAtMostConsumed` | src/data_collection/app/consumer/__init__.py:100-103 | The processed counter counts the deliveries that returned True, at most all of them |
| `Producer.DataProducer.StartProducer` | src/data_collection/app/producer.py:115-171 | When the loop ends, the tables have gained exactly the rows of the blocks start..next-1, each with hash, header and the reward, or 0 if it is not asked for; total and batches are those of their messages; a limiter that never opens leaves one more block row and none of its messages |
| `Producer.DataProducer.ProduceBlock` | src/data_collection/app/producer.py:115-148 | One turn: the block's row goes in, then its messages go out, and the progress invariant advances by one block |
| `Producer.DataProducer.SendBlock` | src/data_collection/app/producer.py:131-146 | A block's batches extend the producer's trace; a block without transactions sends nothing |
| `Producer.BatchesCarryTheStream` | src/data_collection/app/producer.py:131-142 | Without failures the batches of a whole scan join to its stream of encoded events, in order |
| `Producer.StreamLength` | src/data_collection/app/producer.py:131-138 | The stream has one event for each transaction of the scanned blocks |
| `Producer.StreamAt` | src/data_collection/app/producer.py:131-142 | The stream holds the event of each transaction of each block, in order |
| `EventCodec.EventsAre` | src/data_collection/app/utils/data_collector.py:44-47 | The events of the four modes, letter by letter |
| `EventCodec.RoundTrip` | src/data_collection/app/utils/data_collector.py:44-53 | decode(encode(hash, mode)) = (mode, hash) if and only if the hash has no separator; otherwise decoding fails |
| `EventCodec.DecodeIsInverse` | src/data_collection/app/utils/data_collector.py:49-53 | A string that decodes is the encoding of what it decodes to, and a string that is rejected encodes no hash without a separator |
| `EventCodec.OneSeparatorOnly` | src/data_collection/app/utils/data_collector.py:49-53 | Strings with no separator or several are rejected |

## Left out

- Contract creation inserts (contract, token and pair tables): their category tests compare a string with enum members, so they are never reached; `ProcessContractCreation` models what remains, the events.
- Reading the data base: resuming a run from stored blocks, and runs without an end block.
- The log-filter producer and processor, which are not implemented (their messages raise), and ERC1155, which has no mappers.
- Sending a single message (`send_message`): the batch of one, without the batching.
- Contents of the Postgres, Redis, Kafka and web3 clients, connecting and retrying, offset commits, configuration parsing, logging, command line, scripts.
- Foreign keys and column widths; the tables are one map keyed by table and primary key.
- Rounding of fees and values, which are reals here; checksum casing of addresses, which are abstract; ABI decoding, logs come decoded.
- Exceptions in the middle of a handler: modelled as a consumer that stops and a message that is delivered again; a position committed before the handler is done is not.
- DeterministicExactlyWhen: is about sends that succeed; what failed sends leave out is stated for the pipeline without the limiter (`PipelineLosses`).
- The stalling log lines of the limiter; `stall_counter` itself is modelled.
