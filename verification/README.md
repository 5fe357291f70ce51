# Bandle replication: verified model

Bandle replicates a key-value store on three nodes that talk through shared-memory
single-producer/single-consumer rings. Node i owns the sequence numbers i, i+3, i+6, ...;
it assigns them to client requests under an admission window, publishes the proposals to
its two peers, delivers them to itself, drains its peers' rings in batches and executes the
gap-free prefix of a 65536-slot circular log. Nothing compares replicas at run time. This
project models that protocol, the layers under it and the tools around it, and proves what
they rely on for every run and every input.

The main results, hardest first:

- **Protocol** (`Theorems.dfy`, `Agreement.dfy`): for every run of three
  nodes, under any interleaving of assignments, publications to one peer at a time, drains,
  handled chunks and no-ops: replicas agree, completed requests precede later ones
  everywhere, no log slot and no pending slot in use is overwritten, rings never fill,
  and requests are conserved.
- **Liveness** (`Progress.dfy`, `Liveness.dfy`): no deadlock, and every schedule serves every
  client's whole load within a bounded number of steps.
- **Concurrent ring** (`RingModel.dfy`, `RingSafety.dfy`, `RingFifo.dfy`): producer and
  consumer interleaved at single loads and stores with 64-bit counters refine a FIFO queue.
- **Both together** (`Deployed.dfy`, `Refinement.dfy`, `DeployedProgress.dfy`): the cluster
  with its six rings at that grain refines the cluster with queues, so agreement holds down to
  single loads and stores, and it is not stuck while a client is not served.
- **Meaning** (`Meaning.dfy`, `Handlers.dfy`): stores are the fold of the client operations
  executed, with the bytes clients sent; no-ops change nothing and end with the run; late,
  double and malformed messages.
- **Batching** (`LogView.dfy`, `Batching.dfy`, `BatchExecution.dfy`, `Replica.dfy`): chunks
  of 64, execution batches of 256, deferred execution and the sharded store are
  unobservable; the in-place replica equals the one-at-a-time handlers.
- **Votes** (`Votes.dfy`): P1 and DECIDE messages never change what is executed.
- **Histogram** (`Buckets.dfy`, `Histogram.dfy`): the quantile against the exact order
  statistic.
- **Traces** (`Trace.dfy`, `Splitter.dfy`): printer/parser round trip; the greedy splitter.

How the files build on one another: `Types` and `NodeSpec` give the records and the handlers
that run under `mu_` as functions; `Replication` and `Accounting` say what a node's log,
store and counters mean in terms of the proposals delivered to it; `Cluster` is the step
system, `Invariant` its invariant, `Safety` the proof that every step keeps it. `Replica`,
`Store`, `RingView`, `PayloadStore` and `Histogram` hold the imperative forms, each proved
equal to its function or specification.

Assumptions, as in `src/main.cpp`: one submitting thread per node that works through a
finite load of chunks and invalid requests and then marks its input done, no-ops only after
that, no crash, the same preload everywhere, one receiver thread for both peers or one for
each. The bound `w` is any number with configured window <= w, 3*admission batch + 3 <= w
and 1539 <= w <= 32767 (the defaults are far below). A message's data buffer has 1088 bytes,
as its declaration says. The bytes of a reused message buffer beyond the announced lengths
are arbitrary; `RingFifo.DeliveredAlike` shows that no handler looks at them.

Where the code and its surroundings disagree the code is followed: `CxlTraceDB` documents a
maximum payload of 63 and `U` lines for updates, but defaults to 10240 and writes `P`; a
value keeps one character even when the payload limit leaves no room, so the limit is kept
exactly when `Trace.PayloadLimit` says; the splitter
reports "no valid operations" for a trace whose last kept operation has timestamp 0.
Three statements that look true are not, each with its exact condition: `bucket_lower_value`
is not monotone (`Buckets.LowerNotMonotone`; an index lies below all later used ones exactly
when it is used itself, `Buckets.LowerMonotoneExactly`); a key with a colon need not survive a
trace (`Trace.ColonLost`; a trace is replayed as recorded exactly when no key, after
normalisation, has a colon, `Trace.RoundTrip`); and a representative need not be within a
sixteenth of its sample (`Buckets.LowerAccuracy`; it is exactly unless the sample is 1, which
shares bucket 0 with 0, `Buckets.BucketZero`).

## Model

| member | source | states |
|---|---|---|
| Agreement.ReplicaAgreement | src/bandle.cpp:640-829 | In every run, the executed histories of any two nodes at any two moments are prefixes of one another; equal `execute_next_` means equal histories and equal stores |
| Agreement.RealTimeOrder | src/bandle.cpp:255-294 | A request executed at any node before another one was assigned its number has the smaller number and precedes it in every replica's history at every moment |
| Agreement.PayloadIntegrity | src/bandle.cpp:222-249 | Whatever replica executes the number a request got executes that operation with its request id and the first min(length, 1088) bytes of its key and as much of its value as is left of 1088; requests that fit arrive whole |
| Agreement.SubmittedCommand | src/bandle.cpp:235-248 | The message announces at most 1088 bytes, whatever the operation, and the command cut out of it carries the key's first min(length, 1088) bytes and the value's first bytes up to 1088 together |
| Agreement.CarriedWhole | src/bandle.cpp:239-247 | A request whose key and value fit 1088 bytes together is carried unchanged, so different keys stay different |
| Meaning.NoopHarmless | src/bandle.cpp:601-623 | Whatever replica executes the number a no-op took answers no request and leaves any store as it is |
| Meaning.StoreIsClientFold | src/bandle.cpp:771-793 | At every moment of every run a replica's store is the preload with the client operations executed so far applied in order and nothing else; every command executed is a read, put, update or delete with an id, or a no-op without |
| Meaning.NoopsStop | src/bandle.cpp:565-582 | Once all three finish flags are set they stay set, and a node proposes nothing any more except one no-op it had already decided on |
| Meaning.NoopExactly | src/bandle.cpp:574-582 | A no-op is decided on exactly when the input is done, some node has not finished and the own numbers are less than 1536 ahead of execution |
| Meaning.FinishedServed | src/main.cpp:394-399 | A node that has set its finish flag has answered or rejected its whole load |
| Meaning.FinishExactly | src/main.cpp:394-397 | The finish flag is set exactly when the input is done and no request is pending, whatever else the node is doing |
| Meaning.EveryLoadCovered | src/main.cpp:357-392 | The results cover every load of invalid requests and of chunks of any reads, puts, updates and deletes within the stated bounds |
| Meaning.HandleIsSection | src/bandle.cpp:486-518 | A handled chunk takes 64 messages or all that are left, and handling the rest afterwards is handling the whole batch |
| Theorems.SkewBounded | src/bandle.cpp:255-294 | In every state of every run, node i's `execute_next_` never passes node j's `next_seq_`, which is at most w + 2 ahead of j's own `execute_next_` |
| Theorems.SlotsNeverOverwritten | src/bandle.cpp:640-647 | While a proposal is undelivered at a node, the log slot it will take there is blank, so a delivery never resets a slot in use |
| Theorems.FrontierExact | src/bandle.cpp:752-829 | `execute_next_` is the minimum over i of i + 3 times the proposals of i handled, and the commands executed are numbered 1, 2, 3, ... each once |
| Theorems.RingsHaveRoom | src/bandle.cpp:384-438 | Unread messages of a ring lie in one residue class inside the receiver's window, at most 21846 of them; a sender with a batch never waits for space |
| Meaning.ReserveExactly | src/bandle.cpp:393-407 | A batch is reserved exactly when both rings have room for it among their 32768 slots |
| Theorems.ChunksUnobservable | src/bandle.cpp:486-518 | On every batch a node ever holds, handling in chunks of 64 equals handling message by message, on the whole node state |
| Theorems.LivePendingKept | src/bandle.cpp:274-284 | Every own request not yet executed still owns its slot of the pending table, with its id, operation and start time |
| Theorems.RequestsConserved | src/bandle.cpp:797-822 | `pending_count_` is the number of own requests not executed, submitted = ok + pending + errors + waiting, total = ok + errors, ok = reads + writes = samples, and submitted plus what is left makes up the load |
| Theorems.BatchesFit | src/bandle.cpp:409-424 | Every message of every batch a node is about to send fits a ring slot, so `write_batch_at` never rejects one and no batch is self-delivered without being published |
| Theorems.NeverStuck | src/bandle.cpp:255-296 | While any node has a request pending, a chunk waiting in the admission loop or load left, some step is enabled and lowers the remaining work; a waiting chunk can leave by admission only, and input is marked done only after the whole load |
| Theorems.EveryScheduleServes | src/main.cpp:357-399 | Every schedule serves every client, with no fairness assumption: once a run has gone on from any time for more steps than the work then left up to a fixed number, all loads are submitted, admitted and answered or rejected, and each node's total is the size of its load |
| Liveness.AnyStepLowers | src/bandle.cpp:384-623 | While a client is not served, whatever step is taken lowers the work up to one number that stays fixed along the run |
| Liveness.NumbersBounded | src/bandle.cpp:255-296 | A client that is not served holds back every node: no node's numbers run more than 2w + 8 beyond the last request |
| Theorems.AlwaysCompletable | src/main.cpp:357-399 | From every state of every run some continuation serves all clients in at most as many steps as there is work up to the highest number, with total equal to the load at each node |
| Progress.StepLowers | src/bandle.cpp:384-518 | No step raises the work up to any number, and each step that advances a number up to it, or the client, lowers it |
| Progress.AdmissionOpens | src/bandle.cpp:262-267 | A node that has executed all below its next number admits any chunk and may propose a no-op; this is what lets the least node's waiting submitter go on |
| Cluster.AdmitsExactly | src/bandle.cpp:86-92 | A chunk is admitted exactly when its last number lies within the configured window of the execution point or its first one within 6 |
| Progress.IdleEnabled | src/bandle.cpp:255-296 | The step a node with nothing on its way can take: next request, admission, mark done after the load, then no-ops |
| Safety.StepKeeps | src/bandle.cpp:196-308 | Every step of the cluster keeps the invariant that ties logs, rings, batches in hand, counters and pending tables to the proposal histories |
| Safety.RunKeeps | src/main.cpp:394-413 | The invariant holds in every state of every run from equal preloads |
| Invariant.AssignAllKeeps | src/bandle.cpp:267-286 | Assigning an admitted chunk keeps numbering, request ids, pending slots and counts consistent |
| Accounting.AdvanceKeeps | src/bandle.cpp:752-829 | Execution stops exactly at the first undelivered number and keeps log, store and accounting consistent with the histories |
| Accounting.LiveSlotsDistinct | src/bandle.cpp:274-284 | Two requests in flight never share a slot of the pending table |
| Replication.DeliverMany | src/bandle.cpp:640-682 | Recording further proposals of a node makes the circular log represent exactly that many more of them |
| Replication.ExecRepresents | src/bandle.cpp:765-770 | Executing a ready entry appends the command its proposer sent and keeps the log's meaning |
| Batching.BatchingUnobservable | src/bandle.cpp:486-518 | For any messages in the window, votes included, chunked handling and handling one by one reach the same live log, store, pending table and counters: record all, then execute |
| Batching.BatchingExact | src/bandle.cpp:625-638 | On proposals not recorded before, the two are equal slot for slot |
| LogView.AdvanceView | src/bandle.cpp:752-829 | Execution on the circular log is execution on the map of live sequence numbers |
| LogView.Absorb | src/bandle.cpp:640-682 | Recording a message before or after executing leads to the same result |
| Votes.VotesCommute | src/bandle.cpp:710-750 | Interleaving any value-1 votes with the same proposals, batched or not, gives the same executed commands, store, accounting and waiting proposals |
| Votes.QuorumDecides | src/bandle.cpp:710-723 | P1 messages alone, whatever arrived before, add their distinct valid senders, decide a number if and only if two distinct senders have promised over all batches or it was decided already, and execute nothing |
| Votes.NeverPassesUnknown | src/bandle.cpp:765-770 | Execution never passes a number whose proposal has not arrived, whatever was decided for it |
| Votes.VoteInserted | src/bandle.cpp:710-750 | One vote inserted anywhere between the same messages changes nothing that is executed, batched or not |
| Handlers.InvalidPromise | src/bandle.cpp:710-714 | A promise with a value other than 1, a zero promise or a sender outside 1..3 changes nothing |
| Handlers.OversizeIsNoop | src/bandle.cpp:658-669 | A proposal announcing more than 1088 bytes is recorded as a no-op and leaves all payload buffers alone |
| Handlers.FirstProposalStands | src/bandle.cpp:643-670 | A second proposal for a number, whatever it carries, changes nothing |
| Handlers.DecisionStands | src/bandle.cpp:725-737 | Deciding a decided number again, with any value, changes nothing |
| Handlers.DecisionRecorded | src/bandle.cpp:725-750 | A decision ahead of execution is recorded with the value it came with and touches no other entry |
| Handlers.OtherDecisionSkipped | src/bandle.cpp:795-824 | An entry decided with a value other than 1 is passed over without effect |
| Handlers.AnswersExactly | src/bandle.cpp:797-822 | An execution answers a request, once, exactly when the entry is the node's own with an id its pending slot still waits for, and counts it as a read or a write by the slot's operation |
| NodeSpec.Advance | src/bandle.cpp:752-829 | Execution terminates, because each entry executed clears a decided slot, and nothing is ready afterwards |
| BatchExecution.BatchAdvances | src/bandle.cpp:757-782 | A batch scanned before execution is a run of one-by-one executions |
| BatchExecution.BatchStore | src/bandle.cpp:771-793 | Applying a batch's writes to the store at once is what the one-by-one executions add up to |
| BatchExecution.FinishStep | src/bandle.cpp:795-828 | Completing entries after the store already holds the whole batch gives the same accounting |
| Replica.Bandle.AdvanceExecute | src/bandle.cpp:752-829 | The in-place loop with batches of 256 ends in the state of one-at-a-time execution |
| Replica.Bandle.CollectBatch | src/bandle.cpp:757-782 | Counts the maximal ready run of at most 256 entries and collects exactly its writes, in order |
| BatchExecution.ScanBatch | src/bandle.cpp:757-782 | The scan loop on the log itself: maximal ready run of at most 256 entries with exactly its writes, in order |
| BatchExecution.BatchFull | src/bandle.cpp:757-782 | A batch ends before 256 entries only where nothing can run |
| Replica.Bandle.FinishBatch | src/bandle.cpp:795-828 | Completes and resets the entries of a batch and moves the frontier by its length |
| Replica.Bandle.HandleProposalLocked | src/bandle.cpp:640-682 | Updates entry and payload slot as the functional handler, for known, too long and empty payloads alike |
| Replica.Bandle.HandleP1Locked | src/bandle.cpp:710-723 | Collects a promise and decides on a quorum; invalid promises change nothing |
| Replica.Bandle.DecideLocked | src/bandle.cpp:725-737 | Decides an undecided entry and executes; a decided one is left alone |
| Replica.Bandle.HandleDecideLocked | src/bandle.cpp:739-750 | Decides if undecided and executes in any case |
| Replica.Bandle.HandleMessagesBatch | src/bandle.cpp:486-518 | The chunk loop equals the chunked specification, for every batch length |
| Replica.Bandle.HandleOne | src/bandle.cpp:625-638 | Dispatch of a single message |
| Replica.Bandle.Validate | src/bandle.cpp:214-221 | Exactly the requests with operation G, P, U or D go on, in their order; all others are counted as errors and dropped |
| Replica.Bandle.AssignChunk | src/bandle.cpp:255-294 | Admitted exactly when the last number is within the configured window or the first one within 6 of execution; then the k-th request gets number next + 3k, the next ids and its own start time, and otherwise nothing changes |
| Replica.Bandle.DeliverToSelf | src/bandle.cpp:299-305 | Records the own chunk, then executes as far as possible |
| Replica.Bandle.TakeNoopNumber | src/bandle.cpp:601-617 | A no-op takes the next number, with operation N, no key, no value and no request id, without touching the pending table |
| Replica.Bandle.ShouldProposeNoop | src/bandle.cpp:565-582 | True exactly when the input is done, some node has not finished, the interval has elapsed and the own numbers are less than 1536 ahead of execution |
| Store.ApplyInShard | src/kv_store.cpp:151-200 | An operation on its key's shard is that operation on the flat map, and keys stay in their shard |
| Store.FlatDetermines | src/kv_store.cpp:143-145 | Stores with the same flat contents are equal shard by shard |
| Store.KVStore.ApplyOpsInOrder | src/kv_store.cpp:147-210 | Any operation list acts as the sequential fold of put, update-if-present and erase on the flat map |
| Store.KVStore.Put | src/kv_store.cpp:32-53 | Sets the key in the flat map |
| Store.KVStore.Update | src/kv_store.cpp:75-95 | Sets the key only if present and reports whether it was |
| Store.KVStore.Erase | src/kv_store.cpp:97-112 | Removes the key and reports whether it was present |
| Store.KVStore.Get | src/kv_store.cpp:55-73 | Returns the stored value, or the empty string |
| Store.KVStore.TakeSnapshot | src/kv_store.cpp:114-121 | The snapshot is the flat map |
| Store.KVStore.ApplySnapshot | src/kv_store.cpp:123-133 | Afterwards the store holds exactly the snapshot |
| Store.RestoreSnapshot | src/kv_store.cpp:114-133 | Applying a store's own snapshot restores every shard |
| RingFifo.FifoPrefix | include/message_queue.h:101-228 | Under any interleaving and any number of counter wraps, the messages consumed are the first ones published, in order, with equal fields and bytes; at most 32768 are outstanding |
| RingFifo.UnreadUntouched | include/message_queue.h:167-198 | No step writes to a slot whose message has not been given back |
| RingFifo.NeverRetries | include/message_queue.h:316-344 | A descriptor read in full always carries the expected slot number and sane lengths |
| RingFifo.SpaceCheckExact | include/message_queue.h:157-165 | The wrapped comparison succeeds if and only if the true occupancy leaves room |
| RingFifo.QueueRefinement | include/message_queue.h:137-228 | Each step is invisible, appends a whole batch to a queue with room, or removes the front and hands out the same messages |
| RingFifo.DeliveredAlike | src/bandle.cpp:446-484 | Handling what the concurrent ring hands out equals handling what was published, whatever stale bytes follow |
| Refinement.StepRefines | src/bandle.cpp:364-484 | With all six rings at the grain of single loads and stores, each step is a step of the cluster with queues or invisible, up to bytes no handler reads |
| Refinement.RunRefines | src/bandle.cpp:364-484 | Every run of that system is followed by a run of the cluster |
| Refinement.DeployedAgreement | src/bandle.cpp:364-829 | Replica agreement at any two moments of any run of the system with fine-grained rings |
| DeployedProgress.DeployedNeverStuck | src/bandle.cpp:364-484 | While a client is not served, some load, store or local step of the system with fine-grained rings is enabled |
| Refinement.NeverAbandoned | src/bandle.cpp:409-424 | No reachable producer is about to give up a batch half-written |
| RingSafety.StepKeeps | include/message_queue.h:101-356 | Every load or store keeps the ring invariant |
| RingSafety.CellOfWrap | include/message_queue.h:92-93 | Wrapping a counter at 2^64 does not move a slot, since the capacity divides it |
| RingView.SpscRing.PushBatch | include/message_queue.h:137-155 | Appends the whole batch if and only if there is room and every message fits; otherwise the queue is unchanged |
| RingView.SpscRing.CanPushBatch | include/message_queue.h:157-165 | True exactly when the batch fits |
| RingView.SpscRing.WriteBatchAt | include/message_queue.h:167-198 | Stores the batch behind the queue without disturbing it; false exactly when a message is too long |
| RingView.SpscRing.Pop | include/message_queue.h:204-216 | Removes and returns the front message, or reports an empty queue |
| RingView.SpscRing.DrainBatch | src/bandle.cpp:446-484 | Takes the first min(available, max) messages in order |
| PayloadStore.NtStorePayloadPadded | include/message_queue.h:289-314 | The 64/16/padded-tail loops stay inside the slot, store the data, pad with zeros to 16 and leave the rest |
| Buckets.IndexInRange | include/latency_histogram.h:88-114 | Every 64-bit value has an index in 0..1023 |
| Buckets.IndexMonotone | include/latency_histogram.h:88-114 | Larger values have no smaller index |
| Buckets.LowerAccuracy | include/latency_histogram.h:64-85 | The representative does not exceed the value, and is within a sixteenth of it if and only if the value is not 1 |
| Buckets.AccuracyByBucket | include/latency_histogram.h:65-67 | The same condition through the guard for bucket 0: it holds exactly when the bucket is not 0 or the value is 0 |
| Buckets.BucketZero | include/latency_histogram.h:64-92 | The failing input: 0 and 1 share bucket 0, whose representative is 0 |
| Buckets.Reindex | src/bandle.cpp:52-74 | Indexing a representative finds its bucket again |
| Buckets.UsedExactly | include/latency_histogram.h:88-114 | Exactly the indices with sub-bucket below 2^exponent occur |
| Buckets.LowerMonotoneOnUsed | include/latency_histogram.h:64-85 | On those indices representatives grow strictly |
| Buckets.LowerMonotoneExactly | include/latency_histogram.h:64-85 | An index lies strictly below every later used one if and only if it is used |
| Buckets.LowerNotMonotone | include/latency_histogram.h:64-85 | On the others they need not: index 15 gives 16, index 16 gives 2 |
| Histogram.QuantileAccuracy | include/latency_histogram.h:39-62 | The bucket the scan stops at is that of the exact rank-th smallest sample x; the answer is at most x and misses it by at most x/16 if and only if x is not 1 |
| Histogram.RankExists | include/latency_histogram.h:39-62 | Every rank from 1 to the number of samples is taken by some sample |
| Histogram.RankIsPlace | include/latency_histogram.h:39-62 | The sample of a rank is the one at that place when the samples are sorted |
| Histogram.MergeCounts | include/latency_histogram.h:29-34 | Merging equals recording all samples of both |
| Histogram.CountAtMultiset | include/latency_histogram.h:16-19 | Counters depend on the multiset of samples only |
| Histogram.TotalIsSum | include/latency_histogram.h:16-34 | The total kept beside the counters is their sum |
| Histogram.LatencyHistogram.Record | include/latency_histogram.h:16-19 | A histogram of some samples becomes the histogram of one more |
| Histogram.LatencyHistogram.AddBucket | include/latency_histogram.h:21-27 | Adds to one counter and the total; indices out of range change nothing |
| Histogram.LatencyHistogram.Merge | include/latency_histogram.h:29-34 | Becomes the histogram of both sample lists, also when merged with itself |
| Histogram.LatencyHistogram.Quantile | include/latency_histogram.h:39-62 | On the histogram of any samples and any rank from 1 to their number, answers for a sample x of that rank with the bucket of x, at most x and within x/16 unless x is 1; rank 0 asks for 1, beyond the total for the last bucket, and an empty histogram gives 0 |
| Histogram.LatencyHistogram.Snapshot | include/bandle.h:115-124 | The copy has the same counters and total |
| Trace.RoundTrip | src/main.cpp:357-392 | Scanning a printed trace gives back every operation in order, key normalised and value truncated, under either line separator, if and only if no normalised key has a colon |
| Trace.Replayed | ycsb_binding/CxlTraceDB.java:270-300 | From the operations alone: each is replayed with its time and operation, its key cut or padded with '0', and for puts and updates its value whole if the payload limit has room and otherwise cut to the room, but not below one character |
| Trace.LineRoundTrip | ycsb_binding/CxlTraceDB.java:288-300 | A printed line holds no newline and parses to the recorded operation if and only if the normalised key has no colon |
| Trace.ColonLost | src/main.cpp:116-125 | For any operation: a printed key that starts with a colon drops the line, one with a later colon comes back cut there with the rest as value |
| Trace.CleanRecordable | ycsb_binding/CxlTraceDB.java:270-300 | Keys and values without line breaks are printed without line breaks, and keys without colons stay without |
| Trace.PayloadLimit | ycsb_binding/CxlTraceDB.java:288-300 | A payload with a value keeps `cxl.maxpayload` if and only if there is room for the prefix and, unless the value is empty, one character |
| Trace.PayloadLength | ycsb_binding/CxlTraceDB.java:210-230 | A payload without a value is the key length plus 2, whatever the limit |
| Trace.PayloadExceeds | ycsb_binding/CxlTraceDB.java:288-300 | A failing input: with the documented limit of 63 and the default key length a payload has 68 characters |
| Trace.ParseU64 | src/main.cpp:79-93 | Accepts exactly the non-empty digit strings, with their value modulo 2^64 |
| Trace.ParseLineView | src/main.cpp:95-138 | Equals the parser specification on every string |
| Trace.ParsesExactly | src/main.cpp:95-138 | A line parses exactly if it is digits, comma, operation, blank, a non-empty key without colon, optionally a colon and a value, and line breaks; and then to what it says |
| Trace.ScanLast | src/main.cpp:357-361 | A last line without a newline counts too |
| Trace.ScanDataset | src/main.cpp:357-392 | Collects the operations of all lines that parse, in order |
| Trace.NormalizeKey | ycsb_binding/CxlTraceDB.java:270-286 | A key at least as long as the length is cut to it, a shorter one is kept whole and padded with '0' |
| Splitter.SplitTrace | src/bandle_trace_gen.cpp:87-191 | Refuses exactly when the last kept timestamp is 0; otherwise an order-preserving partition of the kept lines with balanced counts, each given to the first node by load, last timestamp and number, plus a line `end,G __pad_node<i>` exactly where a node ends before the global end |
| Splitter.Distribute | src/bandle_trace_gen.cpp:122-171 | Every kept line goes to exactly one node, order is preserved, each operation goes to the node with least count, then earliest last timestamp, then least number, read counts (and write counts when multinode) differ by at most one, otherwise all writes go to node 1 |
| Splitter.KeptExactly | src/bandle_trace_gen.cpp:122-133 | The lines kept are exactly the valid ones in their order, or the first max_ops of them |
| Splitter.SelectExactly | src/bandle_trace_gen.cpp:169-170 | A node's output holds each operation it was given at its place and nothing else |
| Splitter.ReadsExactly | src/bandle_trace_gen.cpp:134-150 | The read count is the number of G operations given |
| Splitter.PickNode | src/bandle_trace_gen.cpp:136-149 | Picks the first node with least count and, among those, earliest last timestamp |
| Splitter.PadAll | src/bandle_trace_gen.cpp:175-182 | Adds a read exactly where the last timestamp is before the end |
| Splitter.EndTimestamp | src/bandle_trace_gen.cpp:87-103 | The timestamp of the last operation kept, 0 if none |

## Left out

- Hardware memory effects: non-temporal stores, fences, cache flushes, prefetching and stale caches; memory is coherent and the head store follows the slot stores. `src/cxl_memory.cpp` is not part of this model.
- Threads, CPU pinning, spinning, sleeping, `stop` and the dropping of messages once `running_` is false; mutexes appear as atomic steps.
- Clocks and timestamps: readings are arbitrary numbers, the no-op interval may elapse at any time, and latencies are only counted as samples.
- The concurrent state machine keeps sequence numbers, request counters, log positions and statistics as unbounded naturals; only the ring counters and the parser wrap at 2^64. A node's load has fewer than 2^56 requests, the range of a local request id.
- DECIDE messages with value 0: no node sends one, and the commutation results are about value 1. The handlers themselves are modelled for every value.
- `input_one_locked` has no caller, so the field it alone sets and the outbox, which stays empty, are not modelled; neither is the constant field `round`.
- Request key and value pointers that are null with a non-zero length.
- `read_batch_at_abs` copies what it has when a descriptor does not match, and `broadcast_batch` repeats both space checks when one fails; the model retries that descriptor or that check only. `RingFifo.NeverRetries` and `Theorems.RingsHaveRoom` show that neither happens.
- Replica: the log, payload and pending tables are sequences that are reassigned, so aliasing between their slots is not captured; the promise mask is a set of senders.
- RingView.SpscRing.DrainBatch: runs without interference from the producer; the interleaved form is RingModel.
- The progress callback, shard mutexes, `reserve_keys` and bucket sizing of the store: performance only.
- Histogram.LatencyHistogram.Quantile: takes the integer rank; the floating-point product that yields it, and overflow of 64-bit counters, are not modelled.
- Splitter: `parse_line` is a parameter, file and argument handling are left out.
- Trace: characters stand for bytes, timestamps are given, and line lengths are below 2^32; node choice and Poisson timestamps of the generator are left out.
- The aggregation tool, CSV output, scripts, argument parsing, memory mapping and shared-memory initialisation.
