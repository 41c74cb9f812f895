# Verified models of liburcu's core

A Dafny model of the parts of the userspace RCU library whose correctness rests on an
argument over all interleavings, all inputs or all sizes: grace-period detection and its
batching, the resizable split-ordered hash table, the two concurrent queues, the ring of
deferred callbacks, and the workers that run callbacks and queued work.

`dafny verify dfyconfig.toml` checks the whole project.

## How the models are built

Memory is sequentially consistent and `cmpxchg`, `xchg`, `or`, `and`, `add` and `dec` are
atomic. There are two kinds of model.

*Protocols.* Code that many threads run at once is a step machine: a `State`, an `Action`
for each access to shared memory, `Enabled` saying when a thread may take it, and `Do`
giving the next state, with the branches of the code. Loads and stores that the code makes
separately are separate actions, so any number of threads may come in between. A run is a
sequence of states (`IsRun`), with any number of threads, nodes, queues and steps. `Inv` is the
invariant, `StepInv` proves that every action keeps it, and the theorems are about all runs.
History variables, marked as such, only record what happened; they decide no step, except where
they say what a caller may ask for (a node that is on a queue is not enqueued again).

*Sequential algorithms.* Code that one thread runs on memory of its own is a class or a method
with the loops and arrays of the source: the ring (`DeferRing`), the bucket tables
(`BucketTables`), the first table (`CreateBucket`), the resize loop (`Resize`) and the bit scan
(`BitScan`).

| module | models | source |
|---|---|---|
| `SplitOrder` | shifts, masks, table-driven bit reversal, bucket index | src/rculfhash.c |
| `BitScan` | find-last-set, order of a size | src/rculfhash.c |
| `HashList` | the linked list: `next` words with flags, every kind of write | src/rculfhash.c |
| `HashSteps`, `HashUnique` | lookup, add, add_unique, add_replace, replace, del, bucket collection, one access a step | src/rculfhash.c |
| `HashTable`, `HashTableProof`, `HashTableRuns` | threads, read sections, the resizer, memory given back; theorems over runs | src/rculfhash.c |
| `HashIndex` | the bucket index against the list: which buckets are linked, when a slot is used again | src/rculfhash.c |
| `HashLookup`, `HashMixed` | what a lookup never misses, and a run of the one thing it can miss | src/rculfhash.c |
| `HashWalk` | reachability by following `next` words alone | src/rculfhash.c |
| `CreateBucket`, `Resize` | the first table, the resize loop and its order of events | src/rculfhash.c |
| `BucketTables` | the order and chunk backends | src/rculfhash-mm-order.c, src/rculfhash-mm-chunk.c |
| `GracePeriod`, `ReaderWord` | readers, the two-stage writer, the futex; the counter words | src/urcu.c, include/urcu/static/urcu.h |
| `Qsbr` | the quiescent-state flavour, 64-bit counter | src/urcu-qsbr.c, include/urcu/static/urcu-qsbr.h |
| `WaitBatch` | batched `synchronize_rcu` over the wait-free stack | src/urcu.c, src/urcu-wait.h, include/urcu/static/wfstack.h |
| `WfcQueue` | the wait-free concurrent queue, dequeue and splice | include/urcu/static/wfcqueue.h |
| `LfQueue` | the lock-free RCU queue | include/urcu/static/rculfqueue.h |
| `DeferRing` | encoder, decoder and barrier of the callback ring | src/urcu-defer-impl.h |
| `Worker`, `Completion` | the work queue's thread, futex, pause and stop; completions | src/workqueue.c |
| `CallRcu` | callbacks, per-queue workers, leftovers of a freed queue | src/urcu-call-rcu-impl.h |
| `Sequences` | optional values and regrouping, for several modules | |

The modules meet at stated interfaces. `WaitBatch` and `CallRcu` take a grace period to be what
`GracePeriod.GracePeriodSafety` proves it to be: it ends when the read sections in progress at
its start have ended. `CallRcu` and `Worker` take a queue operation to be the atomic one that
`WfcQueue.Fifo` proves it to be. The handshake of `Worker` is also that of the `call_rcu` threads
(src/urcu-call-rcu-impl.h:241-273 and 329-408), step for step. The hash table's index arithmetic is `SplitOrder`'s.

In the hash table a `next` word is a record (successor, removed, bucket, owner); the bucket flag
describes the node whose word it is. `pos` places every node that was ever linked on a line, and
`on` is the set of nodes linked in memory; `HashWalk.LinkedIsReachable` shows that `on` is what
following `next` words meets. `Rules` name the keys that enter by add_unique, add_replace and
key-preserving replace (`uniq`) and those that enter by plain add (`dup`).

Two places where the code and what is written about it differ; the models follow the code.

- include/urcu/static/urcu.h:193-196 describes the nesting count in the upper bits and the phase in
  a low one. The code (lines 122-129) has the count in the low half and the phase just above;
  `ReaderWord` proves that the two never meet below the nesting mask.
- src/workqueue.c:344 asserts that the queue is empty once a stopped worker has ended.
  `Worker.StopLeavesWork` gives a run where it is not. It is exactly when all that was ever
  queued has run (`Worker.EmptyIffAllRun`), that is, when nothing was queued after the worker's
  last splice (`Worker.EmptyAtEndIff`). A caller whose flush has returned and who queues nothing
  more meets it (`Worker.EmptyAfterFlush`).

## Model

| member | source | states |
|---|---|---|
| SplitOrder.ReverseU64Reverses | src/rculfhash.c:391-440 | The eight table lookups, shifted and or-ed, are the bit reversal of the whole 64-bit word. |
| SplitOrder.ByteReverses | src/rculfhash.c:391-406 | Each entry of the table built by the R2, R4 and R6 macros is its index with the bits in the opposite order. |
| SplitOrder.RevBit | src/rculfhash.c:419-429 | Bit i of a reversed n-bit word is bit n-1-i of the word. |
| SplitOrder.RevHashInverse | src/rculfhash.c:433-440 | Reversal is its own inverse, so distinct hashes have distinct reversed hashes. |
| SplitOrder.BucketInterval | src/rculfhash.c:894-899 | For every hash and power-of-two size the reversed bucket index is the reversed hash with its low bits cleared. |
| SplitOrder.IntervalIff | src/rculfhash.c:894-899 | Each bucket owns one interval of reversed hashes: a hash's reversal lies in it if and only if the bucket index sends the hash there. |
| SplitOrder.ParentBefore | src/rculfhash.c:1492-1504 | The parent of a new bucket is where the half-size table sends the bucket's own index, and comes strictly before it, one interval away. |
| BitScan.FlsU64 | src/rculfhash.c:479-513 | The six halving steps find the position of the highest set bit of any 64-bit word, 0 for none. |
| BitScan.FlsU32 | src/rculfhash.c:516-546 | The same for 32 bits. |
| BitScan.FlsExact | src/rculfhash.c:442-446 | The position r of the highest bit brackets the word: 2^(r-1) <= x < 2^r. |
| BitScan.CountOrder | src/rculfhash.c:569-579 | The least order whose power of two is at least x; -1 for 0. |
| BitScan.OrderOfPow2 | src/rculfhash.c:569-579 | On a power of two it is the exponent. |
| BucketTables.OrderTable.AllocBucketTable | src/rculfhash-mm-order.c:26-39 | Fresh zeroed cells for exactly one row, no other row touched, nothing for the orders that row 0 serves. |
| BucketTables.OrderTable.FreeBucketTable | src/rculfhash-mm-order.c:46-54 | Gives back exactly that row. |
| BucketTables.OrderTable.BucketAt | src/rculfhash-mm-order.c:56-74 | In bounds for every index below the size of the allocated orders. |
| BucketTables.OrderTable.CellsDistinct | src/rculfhash-mm-order.c:56-74 | Different indices are different cells. |
| BucketTables.OrderCovers | src/rculfhash-mm-order.c:33-37 | The row of order k holds exactly the indices from 2^(k-1) up to 2^k. |
| BucketTables.ChunkTable.AllocBucketTable | src/rculfhash-mm-chunk.c:26-43 | Fresh zeroed chunks for exactly the rows of one order; with orders 0 to k allocated every index below 2^k has one. |
| BucketTables.ChunkTable.FreeBucketTable | src/rculfhash-mm-chunk.c:50-62 | Gives back exactly those rows; the smaller orders stay allocated. |
| BucketTables.ChunkTable.BucketAt | src/rculfhash-mm-chunk.c:64-72 | In bounds for every index below the size of the allocated orders. |
| BucketTables.ChunkTable.RowsOfOrder | src/rculfhash-mm-chunk.c:33-40 | The rows of order k hold exactly the indices from 2^(k-1) up to 2^k. |
| BucketTables.ChunkTable.CellsDistinct | src/rculfhash-mm-chunk.c:64-72 | Different indices are different cells. |
| CreateBucket.Create | src/rculfhash.c:1476-1517 | After the two loops every bucket points to the next one in the order of the reversed indices, and carries its reversed hash. |
| CreateBucket.WalkIsSorted | src/rculfhash.c:1487-1516 | The k-th bucket met from bucket 0 is the bucket with reversed index k; the list ends after the last. |
| CreateBucket.EveryBucketOnce | src/rculfhash.c:1487-1516 | Every bucket below the size is met, once. |
| CreateBucket.ReversedHashesGrow | src/rculfhash.c:1487-1516 | Reversed hashes grow strictly along the list. |
| Resize.Table.InitTable | src/rculfhash.c:1324-1360 | Grows one order at a time, each populated before the size admits it; reaches the last order unless the target moves or the table is destroyed. |
| Resize.Table.FiniTable | src/rculfhash.c:1422-1473 | Shrinks one order at a time; on every way out of the loop the events logged leave exactly the orders below the size populated and allocated. What that means for the list is `HashIndex.LinkedIffBelowSize`. |
| Resize.Table.DoResize | src/rculfhash.c:1939-1960 | The loop ends once the target holds still, with the size equal to the target, unless the table is being destroyed. |
| Resize.RemovedAfterGracePeriod | src/rculfhash.c:1441-1460 | In every log of the resize a grace period lies between lowering the size and unlinking a bucket. |
| Resize.FreedAfterGracePeriod | src/rculfhash.c:1450-1472 | And another one between unlinking an order's buckets and freeing their table. |
| HashList.ApplyKeeps | src/rculfhash.c:905-1018 | Every write that an operation makes to a `next` word keeps the list sorted, its links pointing forward over removed nodes only, and the flags consistent. |
| HashList.ApplyEvolves | src/rculfhash.c:951-1018 | And keeps each node's place, its bucket flag, and, once removed, its successor. |
| HashSteps.StepOk | src/rculfhash.c:905-1202 | Every single access of lookup, add, replace, del and bucket collection keeps what its own operation knows, whatever other threads did before it. |
| HashUnique.OwnUnique | src/rculfhash.c:1042-1119 | An add_unique that inserts does so at a place with no live node of its key behind it. |
| HashUnique.OtherUnique | src/rculfhash.c:1042-1136 | And no step of any other thread puts one there while it is looking. |
| HashTableProof.StepInv | src/rculfhash.c:905-1473 | Every action of every thread and of the resizer keeps the table's invariant. |
| HashTableRuns.NoDuplicateKeys | src/rculfhash.c:1710-1769 | No reachable state has two unremoved nodes with one key, for keys that enter by add_unique, add_replace or key-preserving replace, with del, grow and shrink running. |
| HashTableRuns.RemovedIsFrozen | src/rculfhash.c:1158-1196 | Once REMOVED is set the successor never changes and no flag is cleared; OWNER implies REMOVED; the bucket flag is constant. |
| HashTableRuns.AtMostOneRemoval | src/rculfhash.c:1172-1201 | Among all del and replace calls on a node at most one succeeds. |
| HashTableRuns.SomeRemoval | src/rculfhash.c:1172-1201 | And one has, once the node is removed and no del of it is under way. |
| HashTableRuns.UnlinkedOnReturn | src/rculfhash.c:1181-1184 | A del or replace returns only when its node is unlinked, and it is never linked again. |
| HashTableRuns.LaterSectionsAvoid | src/rculfhash.c:905-946 | A section entered after a node was unlinked never gets hold of it, neither in a traversal nor to remove or replace it: the caller may reclaim it after a grace period. |
| HashTableRuns.NotFoundMeansAbsent | src/rculfhash.c:1596-1632 | A lookup that returns nothing, of a key that enters by unique operations only or by plain adds only, saw the table at a moment when the key was absent, though its node may have been replaced meanwhile. |
| HashLookup.LookupIsAtomic | src/rculfhash.c:1596-1632 | A lookup of such a key returns, whatever runs meanwhile, what it would have returned at one moment between its call and its return: the live node and word it read, or nothing where the key was absent. |
| HashMixed.MixedKeyMissed | src/rculfhash.c:1049-1119 | For every key that may enter both by plain adds and by unique ones, a run in which a lookup misses it although it is present throughout: an add_unique links its node behind the lookup, and the node ahead is deleted. |
| HashMixed.MissedIffMixed | include/urcu/rculfhash.h:312-357 | No lookup ever misses a key that is present throughout if and only if the key enters in one way only. |
| HashTableRuns.StayerIsFound | src/rculfhash.c:1596-1632 | A node that stays for a whole lookup of its key is not missed, however keys are added. |
| HashLookup.HeirIsFound | src/rculfhash.c:971-1006 | Nor is a node that is replaced during the lookup, any number of times, as long as the replacement stays; again for any key. |
| HashTableRuns.IndexAgrees | src/rculfhash.c:1297-1357 | Every index below the published size has a live linked bucket with the reversed index as its hash. |
| HashIndex.LinkedIffBelowSize | src/rculfhash.c:1297-1473 | Between resizes, and while the buckets of a shrink wait to be freed, a bucket is linked if and only if it is the one in a slot below the size. |
| HashIndex.LinkedBeyondSize | src/rculfhash.c:1297-1473 | While an order is linked or removed, a linked bucket beyond the size belongs to that order and is the one in its slot. |
| HashIndex.SlotsReusedAfterFree | src/rculfhash.c:1338-1345 | A slot is populated again only after its old bucket's memory was freed, and that bucket is unlinked. |
| HashIndex.BucketFirst | src/rculfhash.c:1060-1062 | A live bucket comes before every other linked node of its reversed hash, and a walk from it meets that node. |
| HashTableRuns.StartIsLive | src/rculfhash.c:1441-1472 | The bucket from which an operation starts stays live and allocated while it runs. |
| HashTableRuns.RetireAfterGracePeriod | src/rculfhash.c:1441-1460 | A bucket is marked removed only when no operation that loaded a size covering it is still running. |
| HashTableRuns.FreedIsUnreferenced | src/rculfhash.c:1450-1472 | A freed bucket is unlinked and no operation in progress holds it: not as its start, not on its way, and not as the node it is removing. |
| HashTableRuns.ResizeKeepsUsers | src/rculfhash.c:1297-1415 | No step of growing or shrinking changes which user nodes are live, or their order. |
| HashWalk.LinkedIsReachable | src/rculfhash.c:905-946 | The linked nodes are exactly those met by following `next` words from the first bucket. |
| HashWalk.Reach | src/rculfhash.c:1607-1629 | From any node, removed or not, a walk meets exactly the live nodes that are not before it. |
| HashWalk.ReachKept | src/rculfhash.c:905-1018 | Every write keeps every unremoved node reachable from every node that reached it. |
| HashWalk.ReplacementReached | src/rculfhash.c:971-1006 | A replacement is reachable from wherever the replaced node was. |
| HashWalk.BucketScanIsFullScan | src/rculfhash.c:1604-1629 | A scan from any linked bucket at or below a hash meets the nodes of that hash that a scan from bucket 0 meets. |
| HashWalk.WalkSorted | src/rculfhash.c:1049-1119 | The list is sorted by reversed hash. |
| GracePeriod.GracePeriodSafety | src/urcu.c:270-492 | Every outermost read section whose counter store preceded a grace period's start has ended when the grace period ends, with nesting, registration and unregistration interleaved. |
| GracePeriod.NoLostWakeup | src/urcu.c:233-264 | While the writer sleeps, also after interrupted waits, either some reader is about to make the wake call, or every reader it waits for is still in its old section or about to look at the futex word. |
| GracePeriod.StaleOnlyShrinks | src/urcu.c:427-469 | Between two flips a reader that is not in an old section never gets into one again. |
| GracePeriod.OneOldSectionPerFlip | src/urcu.c:427-469 | Between two flips a reader runs at most one outermost section that the writer classifies as old. |
| GracePeriod.PassWithoutStaleIsLast | src/urcu.c:285-339 | A pass that starts when no reader is old is the last one of its stage. |
| GracePeriod.DelayedStore | src/urcu.c:427-469 | A run that shows why there are two stages: it ends in a state with a reader in a section that a writer with one flip would not wait for. |
| ReaderWord.ClassifiesWords | include/urcu/static/urcu.h:176-190 | On the counter words `rcu_reader_state` is the machine's classification. |
| ReaderWord.LocksWords | include/urcu/static/urcu.h:199-206 | The word that a lock stores is the machine's counter; nesting never touches the phase. |
| ReaderWord.UnlocksWords | include/urcu/static/urcu.h:237-246 | The word that an unlock stores is the machine's counter, and it goes on to wake exactly at the outermost. |
| ReaderWord.FlipsWords | src/urcu.c:445-446 | The exclusive or with the phase bit is the machine's flip, and leaves the count of 1. |
| ReaderWord.OverflowFlipsPhase | include/urcu/static/urcu.h:225-226 | One count beyond the mask would clear the count and change the phase, which is why the lock may not be nested that deep. |
| Qsbr.QsbrSafety | src/urcu-qsbr.c:344-427 | Every reader online since before a grace period began has passed a quiescent state or gone offline before it ends, its load and store being separate steps. |
| Qsbr.NoLostWakeup | src/urcu-qsbr.c:119-219 | The same, where a reader has to find its `waiting` flag set first; its load and its clearing are separate steps. |
| WaitBatch.OneLeaderAtBottom | src/urcu.c:392-411 | The waiter stack is non-empty exactly when one caller has pushed on an empty stack and not yet taken it; that caller is alone and at the bottom. |
| WaitBatch.ReturnsAfterGracePeriod | src/urcu.c:377-492 | Every caller, leader or follower, returns only when every read section in progress at its call has ended. |
| WaitBatch.WakerTouchesLiveNode | src/urcu-wait.h:120-133 | The waker reads and writes only nodes of calls still in progress, finds WAITING when it is about to wake, and skips no node but its own. |
| WaitBatch.NothingTouchesAfterTeardown | src/urcu-wait.h:131-132 | After TEARDOWN no leader has the node, or a link to it, before it. |
| WaitBatch.NoLostWakeup | src/urcu-wait.h:139-199 | A follower asleep on its word is on the led stack, or before its leader, or its leader is about to issue the wake and will not skip it. |
| WfcQueue.StepInv | include/urcu/static/wfcqueue.h:145-560 | Every access of every enqueuer, dequeuer and splicer keeps the correspondence of links in memory, links still to be stored, and the abstract queues. |
| WfcQueue.Fifo | include/urcu/static/wfcqueue.h:176-208 | What has left a queue followed by what is on it is what entered it, in the order of the tail exchanges, dequeues and splices included. |
| WfcQueue.ConsumerRefines | include/urcu/static/wfcqueue.h:379-441 | A dequeue takes the first node and reports the last one; NULL and SRC_EMPTY are returned only at a moment when the queue is empty; nothing else changes a queue. |
| WfcQueue.ProducerRefines | include/urcu/static/wfcqueue.h:176-208 | An append adds at the end, whole, and reports whether the queue had anything; a splice takes the whole queue and holds its first and last node. |
| WfcQueue.NullMeansEmpty | include/urcu/static/wfcqueue.h:391-393 | NULL and SRC_EMPTY mean that everything that ever entered has left. |
| WfcQueue.WouldBlockTakesNothing | include/urcu/static/wfcqueue.h:421-430 | An operation that returns WOULDBLOCK leaves the queue as it was, up to what was appended since. |
| WfcQueue.BlockedByEnqueuer | include/urcu/static/wfcqueue.h:395-431 | A consumer waits, or would, only because of an append between its exchange and its store. |
| WfcQueue.EmptyIffTailAtHead | include/urcu/static/wfcqueue.h:133-158 | Both loads of the emptiness test are right at their moment. |
| WfcQueue.NextInQueue | include/urcu/static/wfcqueue.h:317-341 | Iteration yields the node behind, or the end exactly at the last node, or meets an append halfway. |
| WfcQueue.SpliceCarries | include/urcu/static/wfcqueue.h:509-560 | What a splice takes from the source is what it appends to the destination. |
| WfcQueue.FreeIsUntouched | include/urcu/static/wfcqueue.h:444-453 | A returned node may be reused at once: no thread holds it and no pending store goes to it. |
| WfcQueue.MemoryDeterminesQueue | include/urcu/static/wfcqueue.h:176-208 | The abstract queue is a function of the words in memory and of where the threads stand. |
| LfQueue.Fifo | include/urcu/static/rculfqueue.h:143-222 | The nodes returned followed by those on the queue are the users' nodes linked, in link order. |
| LfQueue.ReturnedOnce | include/urcu/static/rculfqueue.h:213-220 | Two dequeues never return the same node. |
| LfQueue.NullMeansEmpty | include/urcu/static/rculfqueue.h:198-201 | NULL is returned only at a moment when the queue is empty. |
| LfQueue.HeadAndTail | include/urcu/static/rculfqueue.h:143-222 | The head is never NULL; the tail is the last or the second-to-last linked node. |
| LfQueue.HeadPassesTail | include/urcu/static/rculfqueue.h:143-222 | A run in which the head is past the tail, which names a dummy already handed to `call_rcu`. |
| LfQueue.DummiesFreedOnce | include/urcu/static/rculfqueue.h:213-219 | Two steps never hand over the same dummy. |
| LfQueue.FreedByHandOver | include/urcu/static/rculfqueue.h:213-219 | A dummy becomes one handed over exactly by the step with which the head passes it, and is never the head again. |
| DeferRing.RoundTrip | src/urcu-defer-impl.h:218-247 | Decoding the words of any callbacks, odd words and the marker included, after any function, gives the callbacks back. |
| DeferRing.RecordForms | src/urcu-defer-impl.h:230-243 | The three forms of a record are told apart by their first word. |
| DeferRing.Unambiguous | src/urcu-defer-impl.h:332-363 | Different callbacks have different words. |
| DeferRing.DeferQueue.WriteRecord | src/urcu-defer-impl.h:348-363 | The encoder puts exactly one record behind the words already there, and overwrites none of them, across a wrap of the counter or of the ring. |
| DeferRing.DeferQueue.Put | src/urcu-defer-impl.h:348-366 | Queues one callback: the undecoded words are the encoding of the callbacks not yet run, and the encoder's function is that of the last of them. |
| DeferRing.DeferQueue.RoomUnlessFull | src/urcu-defer-impl.h:322-330 | The threshold leaves room for the longest record, and the difference of the wrapping counters is the number of words in use. |
| DeferRing.DeferQueue.DecodeRecord | src/urcu-defer-impl.h:230-244 | One turn of the decoder runs the first callback not yet run and stops right behind its words, while the owner queues more. |
| DeferRing.DeferQueue.StopsAtBoundary | src/urcu-defer-impl.h:230-230 | The loop's test is met exactly when all callbacks up to the snapshot have run: the decoder never steps past `head`. |
| DeferRing.DeferQueue.BarrierQueue | src/urcu-defer-impl.h:218-247 | Called after a grace period, runs the callbacks up to the snapshot, in order, each once; each carries the number of grace periods begun when it was queued, and that number is below the number ended when it runs; what the owner queued meanwhile stays. |
| DeferRing.DeferQueue.Barrier | src/urcu-defer-impl.h:249-266 | Everything queued on the ring before the barrier has run when it returns, in order, each callback after a grace period that began after it was queued; that is one new grace period, or none where nothing was queued. |
| DeferRing.BarrierAll | src/urcu-defer-impl.h:281-306 | The same for all registered rings, which share the process's grace periods: exactly one begins and ends, before any callback runs, or none where nothing was queued on any; what owners queue meanwhile is not run. |
| DeferRing.DeferQueue.Defer | src/urcu-defer-impl.h:311-372 | Queues one callback, running everything before it where the ring might not hold it; nothing is lost or reordered, and both assertions hold. |
| Worker.NoLostWakeup | src/workqueue.c:135-269 | While the worker sleeps with work, a stop or a pause to see to, some thread is still going to wake it; it never sleeps on a word below -1. |
| Worker.WordBelowMinusOne | src/workqueue.c:135-166 | A run in which a stale wake takes the word to -2. |
| Worker.RunsInOrder | src/workqueue.c:215-234 | Work is run in the order it was queued, each piece once. |
| Worker.PausedStays | src/workqueue.c:441-458 | Once a pause has been seen granted the worker runs nothing, with no work half done, until the resume. |
| Worker.EmptyAtEndIff | src/workqueue.c:336-346 | The assertion of `urcu_workqueue_destroy` holds exactly when nothing was queued after the worker's last splice. |
| Worker.EmptyAfterFlush | src/workqueue.c:427-439 | A caller that sees the marker of its flush run, and after whose flush nothing is queued, finds the queue empty. |
| Worker.FlushWaitsForAll | src/workqueue.c:424-439 | Once the marker of a flush has run, so has all that was queued before it. |
| Worker.EmptyIffAllRun | src/workqueue.c:336-346 | A worker that has ended leaves the queue empty exactly when all that was ever queued has run. |
| Worker.StopLeavesWork | src/workqueue.c:336-346 | A run in which it fails: work queued between the splice and the stop. |
| Completion.WaitsForAll | src/workqueue.c:399-424 | A completion's wait returns only when all its marker work has run. |
| Completion.NoLostWakeup | src/workqueue.c:368-410 | While the waiter sleeps and all the work has run, some of it is still going to wake it. |
| Completion.FreedIffUnused | src/workqueue.c:359-397 | The structure is freed exactly when the waiter and all the work have let go of it. |
| CallRcu.PerQueueFifo | src/urcu-call-rcu-impl.h:681-771 | Every callback given to a queue is invoked in the order it was given, or still waits in that order, also when the queue is freed and its leftovers go to the default queue. |
| CallRcu.InvokedOnce | src/urcu-call-rcu-impl.h:357-375 | No callback is invoked twice. |
| CallRcu.NeverEarly | src/urcu-call-rcu-impl.h:357-375 | A callback is invoked only when every read section in progress at its `call_rcu` has ended, whichever worker invokes it. |

## Left out

- Weak memory, barriers, `sys_membarrier`, the signal flavour, paths for incoherent caches and per-architecture atomics: all models are sequentially consistent.
- The imperative form of the protocols: `wait_for_readers`, `synchronize_rcu`, the queues' retry loops, the worker loops and the hash table's operations are step machines on values rather than methods that update objects, because other threads run between any two of their accesses; their loops are cycles of program points, and termination, which rests on other threads' progress, is not stated.
- GracePeriod.GracePeriodSafety: the grace-period lock is held by one writer throughout; who gets it next is the subject of `WaitBatch`.
- Qsbr.QsbrSafety: the 64-bit counter does not wrap, and the 32-bit two-stage variant is not modelled (it is `GracePeriod`'s argument with quiescent states for unlocks).
- WaitBatch.NoLostWakeup: a futex wait returns 0 only on a wake of that node; the code takes a 0 return for a real wake.
- Nesting beyond the 32-bit mask: `Enabled` stops at the mask, as the lock's assertion does.
- HashTableRuns.NotFoundMeansAbsent: the key is one that enters by unique operations only or by plain adds only; without that the property fails (`HashMixed.MixedKeyMissed`), and what holds of any key is `HashLookup.HeirIsFound`.
- HashTable starts with one bucket and reaches larger tables by growing; a larger first table is `CreateBucket`, which starts out with the same sorted list.
- Resize targets are arbitrary powers of two in `HashTable`; in `Resize` they are a schedule. A target that is not a power of two is stored unrounded (src/rculfhash.c:1969-1975) and the loop would not settle: sizes are powers of two here.
- CreateBucket.Create: buckets are array elements named by index rather than cells of a backend's rows; `BucketTables` proves that the cells are distinct and in bounds.
- Automatic resizing by node counts, the split counters, `cds_lfht_next` and `cds_lfht_next_duplicate` as operations of their own, `cds_lfht_destroy`, and the splitting of one order among several resize threads.
- BitScan.FlsU64: the portable C version; the x86 instruction is not modelled.
- The mmap backend.
- HashTable nodes deleted by users are never reused; a section that began before the unlinking may still hold them (`LaterSectionsAvoid` is the license to reclaim).
- LfQueue.Fifo: nodes are never reclaimed or enqueued again while the run lasts; a dequeued node can still be named by the tail (`HeadPassesTail`).
- WfcQueue.Fifo: one dequeuer or splicer for each queue at a time, as the library demands of its callers; the lock-taking wrappers are not modelled.
- `cds_wfs_pop`, the stack's single pop: batching uses the pop of the whole stack only.
- DeferRing.DeferQueue.BarrierQueue: the owner's callbacks queued meanwhile come between the loads of the decoder, each record at once; the words it has written and not yet published lie outside what the decoder reads.
- The defer thread's futex (it is `Worker`'s handshake with one kind of request) and registration for defer.
- Worker.PausedStays: the resume waits for PAUSED to be cleared before the next pause is asked for, as `urcu_workqueue_resume_worker` does.
- Real-time workers, which poll instead of sleeping, CPU affinity, the callbacks at worker start, wait and end, and the queue length statistics.
- `rcu_barrier`, `call_rcu` on a queue whose leftovers have been taken, per-CPU and per-thread choice of a queue, and the fork handlers.
