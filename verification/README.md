# Verified model of the order service

The order service reads orders from Kafka, stores them in Postgres and answers
HTTP reads through an in-memory LRU cache. This project models the parts of it
that hold state, and proves what they promise:

* **The linked list and the cache on top of it** (`LinkedList.dfy`,
  `LruCache.dfy`). The list is a heap of nodes with `head`, `tail` and `length`;
  every method is proved to perform its sequence operation and to leave the list
  acyclic with the right tail and length. The cache keeps a map and that list in
  agreement and refines an abstract LRU (keys in recency order, and a map).
* **What the cache holds after any history** (`LruHistory.dfy`,
  `ConcurrentReaders.dfy`, `ConcurrentHistory.dfy`): which keys are resident and
  where they stand, inclusion between caches of different capacity, the warm-up
  under every schedule, and what readers that share the read lock keep and do
  not keep.
* **The retry protocol** (`Receiver.dfy`, `ReceiverTrace.dfy`,
  `ReceiverHistory.dfy`, `ReceiverQueue.dfy`, `KafkaReceiver.dfy`). The consuming loop, the processing
  goroutines, the bounded retry channel and the clock form a labelled transition
  system (`Receiver.Enabled`, `Receiver.Next`); `Consume`'s receive, its clock
  check and its blocking re-send are separate steps. Results hold for every run.
  `KafkaReceiver` is the object with the channel as a field; its contracts say
  which run of the system one undisturbed call performs.
* **Storage and the caches of several replicas** (`Storage.dfy`, `Handler.dfy`,
  `OrderService.dfy`, `Coherence.dfy`, `CoherenceRuns.dfy`,
  `CoherenceTrace.dfy`). Storage is a set of
  keyed tables and a transaction of four inserts. In `Coherence` saves, detached
  cache `Set`s, the two queries of a read and the warm-up of any number of
  replicas interleave freely.
* **Effects of repeated deliveries** (`AtMostOnce.dfy`): any number of receivers
  over one orders table, with a row lock held between insert and commit.
* **The JSON codec** (`Codec.dfy`, `CodecOrder.dfy`, `CodecErrors.dfy`,
  `CodecTypes.dfy`, `CodecNames.dfy`, `Bits.dfy`). All generated types follow one scheme, modelled once over a table
  of fields; the four tables and their required-bit masks are instances.

Four facts are hypotheses of the coherence theorem, and each has a run that
shows what happens without it:

* A failed commit is reported as success, because the deferred function assigns
  to a local variable and not to the result
  (`order_service/internal/ports/adapters/storage/postgres.go:282-292, 315`).
* The two queries of `GetOrderByID` are not one snapshot (`postgres.go:40-56`).
* Neither row loop asks `rows.Err()` (`postgres.go:167-190, 216-229`), so rows
  that stop arriving leave a shorter list and no error; the items are read with
  the caller's context (`:51, 209`), the base row is not (`:99`).
* A text that is longer than its column by spaces is stored cut, and the items
  statement puts its texts between quotes as they are (`postgres.go:412`), so an
  order with other texts than `Storage.Plain` allows may be stored differently
  than it is cached.

## Where the code and its documentation differ

The model follows the code.

* `RemoveLast` is described as tolerant to length 0 (`list.go:110`); it returns
  `ErrEmptyList` there.
* `Get` is called idempotent (`pkgports/ports.go:14`). Called one at a time it is
  (`LruModel.GetIdempotent`), though its first call reorders the key list;
  overlapping reads of one key are not (`ConcurrentReaders.WrongKeyMoved`).
* `SaveOrder` ends with "check defer for more possible errors"
  (`postgres.go:314`); an error of the deferred commit never reaches the caller.
* The top-level README says a message that is not due yet can circulate for
  hours; once due it is delivered within one round of the channel, counted in
  `Consume` calls (`ReceiverQueue.BoundedWaiting`). In time there is no bound:
  without Kafka traffic `Consume` sits in its read
  (`ReceiverQueue.DueWaitsForTraffic`), and it may block for good, which
  `ReceiverQueue.CanBlockIff` characterises.

## Model

| member | source | states |
|---|---|---|
| LinkedLists.LinkedList.Insert | order_service/pkg/linkedlist/list.go:46-83 | From every well-formed list, an index in 0..length inserts there and keeps the list acyclic with correct tail and length; any other index is `ErrInvalidIndex` and changes nothing |
| LinkedLists.LinkedList.Splice | order_service/pkg/linkedlist/list.go:57-73 | The three pointer branches: in front of the head, between two nodes, behind the tail; only the links around the place change |
| LinkedLists.LinkedList.InsertLast | order_service/pkg/linkedlist/list.go:86-88 | Appends and never fails |
| LinkedLists.LinkedList.RemoveAt | order_service/pkg/linkedlist/list.go:95-148 | Removes exactly the indexed element, moving the tail when it was last; empty list and bad index give their own errors and change nothing |
| LinkedLists.LinkedList.RemoveFirst | order_service/pkg/linkedlist/list.go:150-162 | Drops the head, also from a one-element list, or reports an empty list |
| LinkedLists.LinkedList.RemoveLast | order_service/pkg/linkedlist/list.go:111-115 | Drops the last element; on an empty list it reports `ErrEmptyList` |
| LinkedLists.LinkedList.GetAt | order_service/pkg/linkedlist/list.go:168-180 | The element at the index, or the error of the failed access |
| LinkedLists.LinkedList.GetFirst | order_service/pkg/linkedlist/list.go:182-194 | The first element, or `ErrEmptyList` |
| LinkedLists.LinkedList.GetLast | order_service/pkg/linkedlist/list.go:196-205 | The last element, or `ErrEmptyList` |
| LinkedLists.LinkedList.GetNodeAt | order_service/pkg/linkedlist/list.go:214-233 | The node at the index, by head, tail or traversal |
| LinkedLists.LinkedList.MoveToFirst | order_service/pkg/linkedlist/list.go:249-283 | For an index in range the nodes become [s[i]] + s[..i] + s[i+1..], the same node objects, with a correct tail, including i = 1 and i = length-1; otherwise `ErrInvalidIndex` |
| LinkedLists.LinkedList.Relink | order_service/pkg/linkedlist/list.go:266-277 | The pointer surgery: the moved node heads the list, its predecessor skips it, every other link is as before |
| LinkedLists.LinkedList.GetIndex | order_service/pkg/linkedlist/list.go:292-307 | The first index whose element matches, -1 when none does, an error exactly on an empty list |
| LinkedLists.LinkedList.GetAll | order_service/pkg/linkedlist/list.go:310-318 | The elements in order |
| LinkedLists.LinkedList.RecalculateTail | order_service/pkg/linkedlist/list.go:320-326 | Makes a list valid whose only defect is a stale tail |
| LruCache.CacheLRUInMemory.constructor | order_service/pkg/pkgports/adapters/cache/lru/in_memory.go:42-48 | A valid empty cache, for every capacity |
| LruCache.CacheLRUInMemory.Get | order_service/pkg/pkgports/adapters/cache/lru/in_memory.go:58-88 | Answers with the stored value, moves a hit to the front, changes nothing on a miss, never returns an error |
| LruCache.CacheLRUInMemory.Set | order_service/pkg/pkgports/adapters/cache/lru/in_memory.go:93-139 | The key goes to the front with the new value and the keys beyond the capacity go; no error is ever returned; map and list agree |
| LruCache.CacheLRUInMemory.PutFirst | order_service/pkg/pkgports/adapters/cache/lru/in_memory.go:97-111 | Drops an old entry of the key and puts the key first |
| LruCache.CacheLRUInMemory.EvictLast | order_service/pkg/pkgports/adapters/cache/lru/in_memory.go:116-136 | Removes the least recently used key from list and map |
| LruCache.CacheLRUInMemory.GetKeysAmount | order_service/pkg/pkgports/adapters/cache/lru/in_memory.go:141-143 | The list length is the number of stored values and at most max(cap, 0) |
| LruCache.CacheLRUInMemory.GetKeys | order_service/pkg/pkgports/adapters/cache/lru/in_memory.go:146-148 | The keys, most recently used first |
| LruCache.CacheLRUInMemory.MostUsedKey | order_service/pkg/pkgports/adapters/cache/lru/in_memory.go:150-152 | The front key, or an error on an empty cache |
| LruCache.CacheLRUInMemory.LeastUsedKey | order_service/pkg/pkgports/adapters/cache/lru/in_memory.go:154-156 | The last key, or an error on an empty cache |
| LruModel.SetKeepsWellFormed | order_service/pkg/pkgports/adapters/cache/lru/in_memory.go:93-139 | `Set` keeps: no duplicate key, list and map agree, length at most max(cap, 0), zero and negative capacities included |
| LruModel.GetKeepsWellFormed | order_service/pkg/pkgports/adapters/cache/lru/in_memory.go:58-88 | `Get` keeps the same invariant |
| LruModel.GetIdempotent | order_service/pkg/pkgports/adapters/cache/lru/in_memory.go:58-88 | A `Get` repeated with nobody in between changes nothing more |
| LruModel.OneEvictionSuffices | order_service/pkg/pkgports/adapters/cache/lru/in_memory.go:115-136 | Cutting the touched list to the capacity is removing at most its last key |
| LruHistory.RunWellFormed | order_service/pkg/pkgports/adapters/cache/lru/in_memory.go:58-139 | The representation invariant after every sequential run |
| LruHistory.RecencyCharacterised | order_service/pkg/pkgports/adapters/cache/lru/in_memory.go:58-139 | After any run a key is resident iff it was touched and fewer than cap distinct other keys were touched since, where a `Get` touches by the same rule; its position in `GetKeys` is their number; its value is that of its last `Set`; no room is wasted |
| LruHistory.KeysAreMostRecent | order_service/pkg/pkgports/adapters/cache/lru/in_memory.go:58-139 | `GetKeys` is the first max(cap, 0) distinct keys in most-recent-touch order |
| LruHistory.StackInclusion | order_service/internal/service/order_service.go:28-92 | For the same service calls, lost commits and rows of other replicas included: the smaller cache's keys are all along a prefix of the larger one's iff no read of storage fails, for want of an answer or of a row, for the smaller cache alone (or its capacity is below 1) |
| LruHistory.LargerCacheMissesLess | order_service/internal/service/order_service.go:28-56 | Under that condition on failing reads, a hit in the smaller cache is one in the larger, which reads storage at most as often over every trace |
| LruHistory.MissesCounted | order_service/internal/service/order_service.go:35-37 | The count of storage reads is the number of the fetches whose key the cache did not hold |
| LruHistory.StoredIsFetched | order_service/internal/service/order_service.go:28-56 | A key stored by any call of the trace or by another replica is found by the next fetch that storage answers, and stands in front then |
| LruHistory.SuccessesShared | order_service/internal/service/order_service.go:28-92 | Traces whose reads are answered and whose saves are stored as reported meet that condition |
| LruHistory.FailedReadBreaksInclusion | order_service/internal/service/order_service.go:35-42 | Saves of a and b, then a read of a: caches of one and two agree iff the read is answered and a's commit went through; otherwise they end with [b] and [a, b] |
| LruHistory.BareGetsInclusionIff | order_service/pkg/pkgports/adapters/cache/lru/in_memory.go:58-139 | For every trace of `Set`s and `Get`s: the smaller cache is included in the larger one all along iff no `Get` hits the larger one alone (or its capacity is below 1) |
| LruHistory.BareGetsBreakInclusion | order_service/pkg/pkgports/adapters/cache/lru/in_memory.go:58-88 | Without the `Set` on a miss inclusion already fails for capacities 1 and 2 |
| LruHistory.WarmUp | order_service/internal/service/order_service.go:95-116 | For every order in which the warm-up `Set`s run, the cache ends with the last cap of them, last first, each with its value |
| LruHistory.WarmUpHoldsAll | order_service/internal/service/order_service.go:95-116 | When all orders fit, the cache holds exactly them |
| LruHistory.WarmUpScheduleIrrelevant | order_service/internal/service/order_service.go:106-116 | When all orders fit, every schedule gives the same map |
| ConcurrentReaders.EveryRunIsSound | order_service/pkg/pkgports/adapters/cache/lru/in_memory.go:58-139 | For any interleaving of readers and exclusive writers: representation invariant, every stale index in range, every answer right, no error |
| ConcurrentReaders.ReadersOnlyPermute | order_service/pkg/pkgports/adapters/cache/lru/in_memory.go:58-88 | Readers alone permute the keys and leave the map alone |
| ConcurrentReaders.StaleIndex | order_service/pkg/pkgports/adapters/cache/lru/in_memory.go:65-76 | After any number of other moves, the index i still names its key iff following the node through them leads back to i |
| ConcurrentReaders.MoveIsOwnTouchIff | order_service/pkg/pkgports/adapters/cache/lru/in_memory.go:65-76 | In every run, a reader's move is the touch of the key it read iff the moves since its index was found meet that condition; otherwise it puts another key in front |
| ConcurrentReaders.UndisturbedGet | order_service/pkg/pkgports/adapters/cache/lru/in_memory.go:58-88 | The steps of a reader with nobody in between are one `Get`: right answer, hit moved to the front, a miss without effect |
| ConcurrentReaders.WrongKeyMoved | order_service/pkg/pkgports/adapters/cache/lru/in_memory.go:65-76 | A run in which only b is read, correctly twice, and a ends up most recently used |
| ConcurrentHistory.ConcurrentRecency | order_service/pkg/pkgports/adapters/cache/lru/in_memory.go:58-139 | For every interleaving of readers and writers from an empty cache: residence, place and value of each key told from the steps; a value is that of the last write of its key |
| ConcurrentHistory.AnsweredWithLastWrite | order_service/pkg/pkgports/adapters/cache/lru/in_memory.go:58-63 | In every run an answered reader has the value of the last write of its key before it looked, or a miss when the key was not resident by the touches until then |
| ConcurrentHistory.WriteLeaves | order_service/pkg/pkgports/adapters/cache/lru/in_memory.go:93-139 | After a write among readers its key is in front with its value, behind it the others in order as far as there is room, with their values |
| ConcurrentHistory.WriteThenRead | order_service/pkg/pkgports/adapters/cache/lru/in_memory.go:58-139 | A run in which a write is then read |
| Receiver.Conservation | order_service/pkg/pkgports/adapters/receiver/kafka.go:80-147 | Over every run each message read is in exactly one place: nothing is lost or duplicated by re-send, overflow or max-retries |
| Receiver.ExactlyOnePlace | order_service/internal/service/order_receiver_service.go:31-82 | From the start state, message `id` is counted once over all places iff it has been read |
| ReceiverTrace.ValuesAreRead | order_service/pkg/pkgports/adapters/receiver/kafka.go:80-141 | Over every run each message in the channel, the consumer, a goroutine, the DLQ or the successes, and each copy about to be queued, carries the order that was read under its id; dropped is exactly what could not be unmarshalled |
| ReceiverTrace.TraceIsKept | order_service/internal/service/order_receiver_service.go:31-82 | The logged deliveries, the `ProcessOrder` calls, the number of reads and the clock are what the steps of the run say |
| ReceiverTrace.EndsAreTrue | order_service/pkg/pkgports/adapters/receiver/kafka.go:107-147 | Over every run the DLQ has received, in order, exactly the messages rejected as invalid, out of tries or finding the channel full, and the successes are those acknowledged |
| ReceiverHistory.EveryRunKeepsInv | order_service/pkg/pkgports/adapters/receiver/kafka.go:42-141 | In every run the try counter of each waiting or running message equals its logged deliveries and `RetryAfter` is at least last delivery plus backoff |
| ReceiverHistory.AttemptBound | order_service/internal/service/order_receiver_service.go:62-78 | Over every run: channel messages have 1 <= TotalTries <= maxRetries; no message starts to be processed more than max(maxRetries, 0)+1 times, counted from the steps; n messages read cost at most n times that many `ProcessOrder` calls |
| ReceiverHistory.GivesUpIffTriedOut | order_service/pkg/pkgports/adapters/receiver/kafka.go:122-129 | A failure sends a message to the DLQ by its counter iff the run has delivered it max(maxRetries, 0)+1 times |
| ReceiverHistory.BackoffAccumulates | order_service/pkg/pkgports/adapters/receiver/kafka.go:42-93 | The i-th retry is delivered later than the first delivery plus i backoffs, however often it was rotated; `TotalTries` numbers the delivery |
| ReceiverHistory.OutcomesDecreaseRemaining | order_service/internal/service/order_receiver_service.go:62-78 | The sum of remaining attempts is never negative, drops at every processing outcome and grows only when a message is read |
| ReceiverQueue.StepRotates | order_service/pkg/pkgports/adapters/receiver/kafka.go:80-133 | A receive moves every other message forward by one; every other step keeps all positions |
| ReceiverQueue.DueIsDelivered | order_service/pkg/pkgports/adapters/receiver/kafka.go:80-93 | A due message at position p is delivered within p+1 further completed `Consume` calls (one already past its receive not counted), whatever else happens |
| ReceiverQueue.DeliveredIff | order_service/pkg/pkgports/adapters/receiver/kafka.go:80-105 | From every reachable state a run delivers a due message at position p iff p+1 `Consume` calls return in it, one already past its receive not counted |
| ReceiverQueue.BoundedWaiting | order_service/pkg/pkgports/adapters/receiver/kafka.go:80-93 | In every reachable state a due message is delivered within capacity further completed `Consume` calls, one already past its receive not counted |
| ReceiverQueue.BoundIsTight | order_service/pkg/pkgports/adapters/receiver/kafka.go:80-105 | For every capacity and maxRetries of at least 1 and every backoff >= 0, a reachable full channel whose last message is due and takes exactly capacity completed calls |
| ReceiverQueue.ReadingHolds | order_service/pkg/pkgports/adapters/receiver/kafka.go:95-105 | While `Consume` waits for Kafka every message in the channel stays in its place, however long it has been due |
| ReceiverQueue.DueWaitsForTraffic | order_service/pkg/pkgports/adapters/receiver/kafka.go:80-105 | For every d, a run after which a message has been due for longer than d and is still queued, the consumer is reading, and only the clock has moved |
| ReceiverQueue.ChannelAlwaysFits | order_service/pkg/pkgports/adapters/receiver/kafka.go:81-140 | The channel never exceeds its capacity |
| ReceiverQueue.BlockedIffOvertaken | order_service/pkg/pkgports/adapters/receiver/kafka.go:81-90 | The re-send blocks iff at least capacity+1-n pushes went through since the receive from a channel of length n; never without a push |
| ReceiverQueue.BlockedForever | order_service/pkg/pkgports/adapters/receiver/kafka.go:90 | Once the re-send is blocked, no later step of anyone changes the channel or the consumer, and nothing is delivered or processed any more |
| ReceiverQueue.OnlyTheResendWaits | order_service/internal/service/order_receiver_service.go:31-82 | In every state some step of the consumer is possible iff it is not blocked in its re-send, and every other goroutine can go on |
| ReceiverQueue.BlockingRun | order_service/pkg/pkgports/adapters/receiver/kafka.go:82-90 | A run into the blocked state, for every capacity >= 1 |
| ReceiverQueue.CanBlockIff | order_service/pkg/pkgports/adapters/receiver/kafka.go:81-140 | A blocked state is reachable iff capacity >= 1, maxRetries >= 1 and backoff >= 0 |
| KafkaReceivers.KafkaReceiver.Consume | order_service/pkg/pkgports/adapters/receiver/kafka.go:80-105 | An undisturbed call returns the due message or rotates the channel and returns what it read, a fresh message with its value; it performs exactly one of three runs of the system and never blocks |
| KafkaReceivers.KafkaReceiver.OnFail | order_service/pkg/pkgports/adapters/receiver/kafka.go:113-120 | Retries on request, otherwise hands the message to the DLQ, which is the `Reject` step of the loop |
| KafkaReceivers.KafkaReceiver.SendToRetries | order_service/pkg/pkgports/adapters/receiver/kafka.go:122-141 | With tries left and room, the channel's new tail has the same id and value, a counter raised by one and the due time now plus backoff; otherwise the message goes to the DLQ; these are the fail and push steps |
| KafkaReceivers.ConsumeRunIsLegal | order_service/pkg/pkgports/adapters/receiver/kafka.go:80-105 | What one undisturbed `Consume` leaves in the channel and returns, as a run of the system |
| KafkaReceivers.FailRunIsLegal | order_service/pkg/pkgports/adapters/receiver/kafka.go:122-141 | Where a failed message goes, and with which value, counter and due time, as a run of the system |
| Storage.OrdersStoragePostgres.SaveOrder | order_service/internal/ports/adapters/storage/postgres.go:276-316 | nil iff begin and all four inserts went through, otherwise the error of the first stage that did not; rows appear, with the values the columns took, iff nil and the commit succeeded; otherwise the tables are as before |
| Storage.OrdersStoragePostgres.RunInserts | order_service/internal/ports/adapters/storage/postgres.go:294-312 | All four inserts are in the transaction, or the error is that of the first stage that fails |
| Storage.OrdersStoragePostgres.GetOrderItemsByID | order_service/internal/ports/adapters/storage/postgres.go:195-230 | A reported failure is an error; otherwise the item rows that arrived, each once, in some order, with no error: all of them iff the stream did not end early |
| Storage.OrdersStoragePostgres.GetOrderByID | order_service/internal/ports/adapters/storage/postgres.go:34-127 | Succeeds iff neither query reports an error and the joined row exists; the result is that row with the items that arrived; an error is one of those that happened |
| Storage.OrdersStoragePostgres.GetLastOrders | order_service/internal/ports/adapters/storage/postgres.go:134-271 | Fails iff a query reports an error; otherwise the orders that arrived, in the order of the query, each with those of its own items that arrived |
| Storage.ArrivedAreNewest | order_service/internal/ports/adapters/storage/postgres.go:134-191 | What the start-up query delivers is newest first and no stored order that did not arrive is newer; without an early end there are as many as asked for or stored |
| Storage.SaveRoundTrip | order_service/internal/ports/adapters/storage/postgres.go:34-428 | A saved order is read back iff it has items and a uid, with every field as the columns took it, links and time stamps filled in; other orders' rows are untouched; references stay intact |
| Storage.InsertableIff | order_service/db/migrations/000001_init.up.sql:8-69 | The inserts go through by themselves iff every value fits its column and its CHECK, the uid is new, and no two items share an nm_id |
| Storage.InsertsKeepReferences | order_service/db/migrations/000001_init.up.sql:23-68 | Each insert by itself refers only to orders that are there and overwrites no row |
| Storage.PlainIffFits | order_service/db/migrations/000001_init.up.sql:8-65 | Without NULs and quotes: an order fits its columns iff its texts are within their widths and its integers in range and within their CHECKs |
| Storage.PlainHasNoQuotes | order_service/internal/ports/adapters/storage/postgres.go:405-428 | An order with a quote in a text of the items statement is not among those known to be stored as given |
| Handler.BuildResponse | order_service/internal/handlers/httphandlers/handler.go:48-105 | The response can be read back into the order but for links and time stamps: every other field, the items in their order, both optional fields set |
| Handler.PresentationUnique | order_service/internal/handlers/httphandlers/handler.go:48-105 | There is exactly one response with that property |
| Handler.SameResponseIff | order_service/internal/handlers/httphandlers/handler.go:48-105 | Two orders give the same response iff they differ in links and time stamps at most |
| Handler.StoredResponse | order_service/internal/handlers/httphandlers/handler.go:48-105 | An order put together from its rows, in any item order, gives the response of the order that was saved |
| OrderServices.OrderService.GetOrder | order_service/internal/service/order_service.go:28-56 | One `Fetch` of the trace model: a hit from the cache whatever storage does, a miss read, cached and answered with the items that arrived, an error of the read passed on without effect |
| OrderServices.OrderService.SaveOrder | order_service/internal/service/order_service.go:70-92 | Caches iff storage reported success, and passes on the error of the stage that failed; over readable tables one `Save` of the trace model, lost commits and altered texts included |
| OrderServices.OrderService.CacheLastOrders | order_service/internal/service/order_service.go:95-124 | Fails iff a query reports an error, and then changes nothing; from an empty cache it is the run of `Set`s that the warm-up lemmas are about, over the orders that arrived, and with room for all it holds exactly these, whatever the schedule |
| OrderServices.WarmUpWhenAllFit | order_service/internal/service/order_service.go:106-116 | For every schedule of the goroutines a cache with room for all ends with exactly the orders that were loaded |
| Coherence.EveryRunKeepsInv | order_service/internal/service/order_service.go:28-124 | Over every interleaving: each cached, pending or served order is coherent, or is the stored one with some items missing (only if items may be read first or streams may end early), or was not stored as given |
| Coherence.CachesAreCoherent | order_service/internal/service/order_service.go:28-124 | If commits succeed, orders are stored as given, items are read after their base row and no items stream ends early: everything cached, pending or served gives the response of what is stored under its uid |
| Coherence.PlainIsAsGiven | order_service/internal/ports/adapters/storage/postgres.go:276-428 | A run whose saved orders have plain texts stores them as given, so the hypothesis on stored orders need not be asked of it |
| Coherence.AnswersAgree | order_service/internal/service/order_service.go:28-56 | Under the same hypotheses any two answers for one uid, from any replicas at any times, agree up to item order |
| Coherence.CoherentIffAllItems | order_service/internal/ports/adapters/storage/postgres.go:34-65 | With no hypothesis on the run: an order whose save, if any, was stored as given has the fields of the stored order and a part of its items, and gives the same response iff it has as many items as are stored |
| Coherence.FinishedCoherentIff | order_service/internal/ports/adapters/storage/postgres.go:34-65 | In every run: an order put together by a read is coherent iff the step that read its items saw the whole listing of a uid committed by then |
| CoherenceRuns.LostCommitDiverges | order_service/internal/ports/adapters/storage/postgres.go:282-316 | A run with a failed commit after which a different order is stored than is served |
| CoherenceRuns.LongEntryDiverges | order_service/db/migrations/000001_init.up.sql:6-21 | A run with good commits and reads in which an order is stored with a cut `entry` and served with the whole one |
| CoherenceRuns.TornReadDiverges | order_service/internal/ports/adapters/storage/postgres.go:38-62 | A run with good commits in which an order is served and cached without its items |
| CoherenceRuns.BrokenReadDiverges | order_service/internal/ports/adapters/storage/postgres.go:195-230 | For every n short of all: a run with good commits, base row read first, in which an order is served and cached with the first n of its items |
| CoherenceTrace.HandedIsPutOrPending | order_service/internal/service/order_service.go:44-51 | Over every run each order saved or found by a read, warm-up included, is waiting for its detached `Set` or has been put, once |
| CoherenceTrace.CacheIsItsHistory | order_service/internal/service/order_service.go:28-124 | In every run the cache of each replica is what its own `Set`s and `Get`s leave, in the order of the steps |
| CoherenceTrace.GetAnswers | order_service/internal/service/order_service.go:28-56 | A `GetOrder` is answered at once, with the order last put under its key, iff by that history the key is resident; otherwise it starts a read |
| CoherenceTrace.ReadsInProgress | order_service/internal/service/order_service.go:35-42 | Over every run the reads in progress are those started and not ended |
| CoherenceTrace.FailedReadLeavesNothing | order_service/internal/service/order_service.go:37-42 | A read may fail at any time and leaves cache, pending `Set`s, answers and tables alone |
| CoherenceTrace.WarmUpCaches | order_service/internal/service/order_service.go:95-116 | A warm-up read and its `Set` leave the stored order with the items that arrived in front of the cache and answer nobody |
| AtMostOnce.EveryRunKeepsInv | order_service/internal/ports/adapters/storage/postgres.go:276-345 | Over every run of any number of replicas: open transactions never hold a committed uid, completions balance rows plus lost commits for every uid, and every row was written by a completed message |
| AtMostOnce.LocksAreOpen | order_service/internal/ports/adapters/storage/postgres.go:276-345 | Over every run a message holds a uid iff the last step of its attempts was the insert of that uid; whoever holds a lock is being processed |
| AtMostOnce.EndFreesUid | order_service/internal/ports/adapters/storage/postgres.go:282-316 | A rollback and either commit free exactly the uid of their transaction, which its own attempt had inserted; after a rollback every message with that uid can insert it |
| AtMostOnce.OutcomesPossible | order_service/internal/ports/adapters/storage/postgres.go:282-316 | A message being processed can be rolled back or commit iff its own last step was the insert of its uid, and otherwise can fail before it |
| AtMostOnce.ReplicaRunsReceiver | order_service/internal/service/order_receiver_service.go:31-82 | In every run of the whole system each replica runs as the receiver by itself, a commit being a success and a failed save a failure |
| AtMostOnce.RowsAreCommits | order_service/internal/ports/adapters/storage/postgres.go:276-345 | The table has a row for a uid iff a commit step of the run went through for it, written by that message |
| AtMostOnce.RetryAfterRollbackStores | order_service/internal/ports/adapters/storage/postgres.go:282-316 | For every order whose uid fits, a run in which the first attempt is rolled back after the order row and the retry stores the order |
| AtMostOnce.CompletionsBalanceRows | order_service/internal/ports/adapters/storage/postgres.go:276-345 | With no hypothesis, for every uid: completed messages are its rows (one or none) plus its lost commits |
| AtMostOnce.EffectOnceIffCommitsGoThrough | order_service/internal/service/order_receiver_service.go:62-78 | The uids of completed messages are pairwise distinct and exactly the table's keys iff every commit step of the run goes through |
| AtMostOnce.LostCommitCompletesTwice | order_service/internal/ports/adapters/storage/postgres.go:282-316 | One order on two replicas, the first commit failing: two completed messages, one row, written by the second |
| AtMostOnce.RetriedLeftNoRow | order_service/pkg/pkgports/adapters/receiver/kafka.go:108-141 | A message in a retry channel has written no committed row |
| Codec.RequiredFieldCheck | order_service/internal/api/oas_json_gen.go:1078-1112 | With well-typed members, repeats and unknown names allowed: success iff every required name occurs, else exactly the missing ones are reported |
| Codec.MissingNamesDistinct | order_service/internal/api/oas_json_gen.go:1078-1107 | No name is reported twice |
| Codec.RoundTrip | order_service/internal/api/oas_json_gen.go:805-1113 | For every schema of the scheme, decoding the encoding into a fresh struct gives the struct back |
| CodecErrors.AcceptedIff | order_service/internal/api/oas_json_gen.go:895-1113 | A value is decoded iff it is of the right kind, in range and complete at every level, whatever the struct held |
| CodecErrors.ObjectAcceptedIff | order_service/internal/api/oas_json_gen.go:895-1113 | An object is decoded iff every member with a field's name is acceptable and every required name occurs; a bad member is reported before missing ones |
| CodecErrors.LastMemberWins | order_service/internal/api/oas_json_gen.go:901-1075 | A field that is neither object nor array takes its last member; a field without a member keeps what the struct had |
| CodecErrors.RepeatedNested | order_service/internal/api/oas_json_gen.go:933-952 | A repeated object is decoded into the struct that the first one left |
| CodecOrder.SameObjects | order_service/internal/api/oas_json_gen.go:895-1113 | Objects equal up to member order at every level decode identically, errors and missing-field reports included |
| CodecOrder.PermutationIsSame | order_service/internal/api/oas_json_gen.go:901-1075 | Every permutation of distinct members is equal in that sense |
| CodecTypes.ReportByte | order_service/internal/api/oas_json_gen.go:1084-1106 | The popcount, trailing-zeros and bit-clear loop reports the bits of one byte, ascending |
| CodecTypes.CheckRequired | order_service/internal/api/oas_json_gen.go:1079-1107 | The loop over the bytes reports every unset required bit |
| CodecTypes.DecimalDenotes | order_service/internal/api/oas_json_gen.go:1095-1100 | A field without a name in the table is reported by its decimal number |
| CodecTypes.ReportsMissingNames | order_service/internal/api/oas_json_gen.go:1079-1107 | With fitting masks the report is the list of missing names in field order, never a number |
| CodecTypes.Decode | order_service/internal/api/oas_json_gen.go:895-1113 | The pass over the members with its bit row, then the check, is the decoding function |
| CodecTypes.Encode | order_service/internal/api/oas_json_gen.go:812-875 | The buffer receives the members of the set fields in field order |
| CodecNames.EncodedByName | order_service/internal/api/oas_json_gen.go:812-875 | For every schema: under each field's name the value of its slot, nothing for an unset optional, no repeated and no foreign name |
| CodecNames.EncodedShows | order_service/internal/api/oas_json_gen.go:812-875 | Every response is encoded with its own fields under their own API names, at every level: header, delivery, payment and each item |
| CodecNames.ShownIsDecoded | order_service/internal/api/oas_json_gen.go:895-1113 | Every JSON object that shows a response by name, members in any order at each level, is decoded to that response |
| CodecNames.FreshIsEmpty | order_service/internal/api/oas_json_gen.go:895-897 | The struct that decoding starts from has no text, zero numbers and unset optionals |
| CodecTypes.DeliveryMasksFit | order_service/internal/api/oas_json_gen.go:263-265 | The generated mask has a bit exactly for each required field |
| CodecTypes.PaymentMasksFit | order_service/internal/api/oas_json_gen.go:1330-1333 | The same for payments: all but request_id |
| CodecTypes.OrderItemMasksFit | order_service/internal/api/oas_json_gen.go:756-759 | The same for items |
| CodecTypes.OrderResponseMasksFit | order_service/internal/api/oas_json_gen.go:1080-1083 | The same for responses: all but internal_signature |
| CodecTypes.ResponseRoundTrip | order_service/internal/api/oas_json_gen.go:805-1113 | Every response, with any items, survives the trip in whatever order the members arrive |
| CodecTypes.ResponseSlotsInjective | order_service/internal/api/oas_json_gen.go:812-875 | No two responses have the same encoded fields |

## Left out

- The list's mutex and its unlocked traversals: list operations are atomic steps; a finer interleaving is not preserved by the code and not modelled.
- Node.value is a constant of the node, because no code writes it after the node is made.
- Kafka, pgx and jx internals: a message arrives, an insert succeeds or fails, a JSON value is parsed. Offset commits have no effect in the model.
- LinkedLists.LinkedList.Advance: one traversal loop stands for the four copies of it in the source.
- SQL text: what becomes of a text that is too long or holds a quote is a choice of the environment (`Storage.Keeps`), also where Postgres would refuse it.
- The schema-less table name in the items query depends on the connection's search path; the model reads the same table as the inserts.
- Storage.OrdersStoragePostgres.GetOrderByID: both queries of the method see one state of the tables; as separate steps they are `ReadBase` and `ReadItems` of module `Coherence`.
- In `Coherence` a warm-up read may start for any stored order (`WarmBase`), always base row first, as in the code; every order stored in a run of that model has items and a uid, so the missing join makes no difference there.
- Storage.OrdersStoragePostgres.GetLastOrders: the fetches of the items run one after the other, on one state of the tables, and the first failure ends them. A negative limit, which turns into a huge unsigned number, counts as a failed query.
- A save is one step of `Coherence`; the locking of concurrent inserts is modelled in module `AtMostOnce`, where the rows after the order row are one stage that may fail.
- Rollback failures: a transaction whose rollback fails is closed without rows.
- Most of the validator: an order is valid or not as a choice of the environment; where it matters, a valid order has a uid and at least one item.
- OrderServices.OrderService.CacheLastOrders: the goroutines run one after the other in the given schedule; a `Set` holds the write lock, so this loses no behaviour of the cache.
- `StartReceivingOrders` is modelled as the consumer of the transition system, not as a loop; the `done` channel and context cancellation are left out.
- Sending to the DLQ is immediate; it only logs.
- Time zones and the precision of stored time stamps: times are opaque values, stored and printed as they are. In the codec a date-time is a value of its own (`JTime`), so a string field that happens to hold a date is not modelled.
- CodecTypes.Decode: nested objects and arrays are decoded by the function `DecodeSlot`, not by a nested loop; JSON text, escapes and numbers with fractions are not modelled.
- Error response types of the codec (one required field each), the router, client, server configuration, logging and start-up code.
