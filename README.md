# Batching writer of the ProaSense storage service

This project models the consume loop of `EventWriterMongoSync.run()`. The loop pulls one
event document at a time from a queue. A data record is counted and appended to the pending
document list of its own MongoDB collection. The collection handle and the list are created
on the first record for that collection. A heartbeat record is not counted.

Every pending list that is not empty is written with one `insertMany` call and then cleared.
This drain happens on any of three triggers:

- a heartbeat arrives;
- the data-record count `cnt` reaches a multiple of `bulkSize`;
- the pull that just returned waited at least `maxWait` milliseconds. The deadline is armed
  before each pull and checked after it, so this trigger detects an idle gap rather than
  firing on a fixed period.

A benchmark counter reports `logSize * 1000 / elapsed` (Java integer division) for every
`logSize`-th data record. It skips the report when no time has elapsed.

Two modules:

- `Batching` (batching.dfy) holds the values: records, documents, bulk inserts and reports.
  It also holds the specification functions:
  - `Route` routes one record;
  - `Payloads` gives what was routed to a collection;
  - `Inserted` gives what was bulk-inserted to a collection;
  - `IsDrainOf` says that a batch of inserts drains a set of buffers;
  - `Accounted` is the no-loss, no-duplication invariant.

  Its lemmas relate these functions to each other.
- `Writer` (writer.dfy) holds the class `EventWriterMongoSync`:
  - The collection-handle map is represented by the key set `handles`, and the document
    lists by `buffers`. `cnt` and `timer1` are also fields, updated in place.
  - `Step` is one iteration of the `while (true)` loop.
  - `Flush` is the `for` loop over `entrySet()`, and `DrainOne` is that loop's body.
  - `Add` is the routing branch, and `Benchmark` is the telemetry block.
  - `Run` runs the loop over a finite stream of pulls.

Other details of the model:

- Every `insertMany` call is appended to the ghost log `written`.
- The data records consumed so far are kept in the ghost log `routed`.
- The clock readings taken around each pull are passed in as parameters:
  - `armedAt`, when the deadline is armed;
  - `checkedAt`, when the deadline is checked;
  - `reportAt`, when a report is timed.
- The order in which a `HashMap` iterates is unspecified. `Flush` therefore picks the next
  key nondeterministically, and every property of a drain is stated per collection.

## Model

| member | source | states |
|---|---|---|
| Batching.Quot | src/main/java/net/modelbased/proasense/storage/EventWriterMongoSync.java:146 | Java's truncating `long` division: the remainder is smaller than the divisor in magnitude and is zero or has the sign of the dividend |
| Batching.Route | src/main/java/net/modelbased/proasense/storage/EventWriterMongoSync.java:107-117 | routing a data record adds its collection to the keys if new, gives a new collection the one-element list `[document]`, appends the document at the end of an existing list, and changes no other collection's list |
| Batching.RouteAllGroups | src/main/java/net/modelbased/proasense/storage/EventWriterMongoSync.java:107-117 | grouping over a run of data records with no drain: a collection has a list iff it had one or some record names it, and its list is its earlier contents followed by exactly the payloads addressed to it in arrival order |
| Batching.DrainOf | src/main/java/net/modelbased/proasense/storage/EventWriterMongoSync.java:121-125 | visiting one collection during a drain issues a write iff its list is non-empty |
| Batching.DrainVisit | src/main/java/net/modelbased/proasense/storage/EventWriterMongoSync.java:120-126 | visiting one more collection extends a partial drain: the new write, if any, carries exactly that collection's list, and no collection is written twice |
| Batching.InsertedAppend | src/main/java/net/modelbased/proasense/storage/EventWriterMongoSync.java:123 | what two runs of `insertMany` calls deliver to a collection is what the first delivers followed by what the second delivers |
| Batching.InsertedDistinct | src/main/java/net/modelbased/proasense/storage/EventWriterMongoSync.java:120-126 | when no collection is written twice, a collection receives nothing if it is not written, and otherwise exactly the documents of its one call |
| Batching.DrainDelivers | src/main/java/net/modelbased/proasense/storage/EventWriterMongoSync.java:131-137 | a drain delivers to every collection exactly its whole pending list in arrival order, and nothing to an empty or unknown collection |
| Batching.DrainAppends | src/main/java/net/modelbased/proasense/storage/EventWriterMongoSync.java:131-137 | after a drain, each collection has received what it had received before followed by its pending list |
| Batching.AccountedRoute | src/main/java/net/modelbased/proasense/storage/EventWriterMongoSync.java:107-117 | routing a data record keeps "inserted followed by pending equals routed payloads" true for every collection |
| Batching.AccountedClear | src/main/java/net/modelbased/proasense/storage/EventWriterMongoSync.java:123-124 | bulk-inserting one list and clearing it keeps "inserted followed by pending equals routed payloads" true for every collection |
| Batching.DeliveredWhenEmpty | src/main/java/net/modelbased/proasense/storage/EventWriterMongoSync.java:107-138 | no loss and no duplication: once nothing is pending, every collection has received exactly the payloads routed to it, each once, in order |
| Writer.EventWriterMongoSync.constructor | src/main/java/net/modelbased/proasense/storage/EventWriterMongoSync.java:57-62 | keeps `bulkSize` and `maxWait`, and sets up run()'s initial state (:81-88): no handles, no lists, `cnt == 0`, `timer1` the start time |
| Writer.EventWriterMongoSync.DrainOne | src/main/java/net/modelbased/proasense/storage/EventWriterMongoSync.java:121-125 | a non-empty list is written with one call and cleared; an empty list issues no call; no other list changes; the no-loss invariant is kept |
| Writer.EventWriterMongoSync.Flush | src/main/java/net/modelbased/proasense/storage/EventWriterMongoSync.java:131-137 | the calls issued form a drain of the old lists (one per non-empty list, exact contents, no collection twice, any order); every list is empty afterwards and the keys are kept; no call at all when nothing was pending |
| Writer.EventWriterMongoSync.Add | src/main/java/net/modelbased/proasense/storage/EventWriterMongoSync.java:99-117 | a data record raises `cnt` by one, registers its collection's handle and list on first sighting, and leaves the lists as `Route` gives them |
| Writer.EventWriterMongoSync.Benchmark | src/main/java/net/modelbased/proasense/storage/EventWriterMongoSync.java:141-157 | a report `(cnt, LogSize*1000 / (reportAt - timer1))` is issued and `timer1` advances iff the record is data, `cnt % LogSize == 0` and the interval is non-zero; otherwise nothing changes; reported counts stay increasing multiples of `LogSize` |
| Writer.EventWriterMongoSync.Step | src/main/java/net/modelbased/proasense/storage/EventWriterMongoSync.java:93-158 | a heartbeat leaves `cnt`, the handles and the routed log unchanged, and a data record adds one to each; when a heartbeat, count or idle-gap trigger fires, the iteration's writes drain the routed lists and leave them all empty, and otherwise no write happens; the report is as in `Benchmark` |
| Writer.EventWriterMongoSync.Run | src/main/java/net/modelbased/proasense/storage/EventWriterMongoSync.java:93-159 | over a finite stream, `cnt` counts exactly the data records, the handles never shrink, the reports are returned in order, and a stream ending in a heartbeat leaves nothing pending with every routed payload inserted exactly once |
| Writer.BulkOfTwoScenario | src/main/java/net/modelbased/proasense/storage/EventWriterMongoSync.java:130-137 | with `bulkSize` 2, records A:x1 and B:y1 trigger a count drain that writes `[x1]` to A and `[y1]` to B and leaves both lists empty |
| Writer.HeartbeatScenario | src/main/java/net/modelbased/proasense/storage/EventWriterMongoSync.java:119-127 | a heartbeat after C:c1 and C:c2 writes `[c1, c2]` to C at once and leaves the count at 2 |

## Left out

- The MongoDB driver is not modelled: connecting, `getDatabase`, `getCollection` and `close` (:77-78, :111, :174). Registering a handle is modelled as adding the key to `handles`.
- `insertMany` is not modelled as a driver call. It is modelled as appending to the ghost log `written`, so a failed or hanging insert is not modelled.
- The blocking `queue.take()` (:95) and the `InterruptedException` teardown (:160-161) are left out. The input is a parameter of `Step`, or a finite sequence for `Run`.
- The regular-expression match against the heartbeat pattern (:99, :107) is not modelled. It is represented by the abstract set `heartbeats` of collection ids that match.
- Console output is left out (:148-150), and so are the benchmark log file and its `IOException` handling (:91, :153-156, :162-171). Only the `(cnt, average)` value of each report is kept.
- `System.currentTimeMillis()` (:84-85, :94, :130, :142) is not called. Its readings are parameters of the constructor and of `Step`. At :130 the clock is read after the heartbeat drain, and only when `cnt % bulkSize != 0`. Since the reading is a free parameter, this order needs no further modelling.
- The constructor that also takes `isBenchmarkLogfile` and `threadNumber` (:65-72) is not modelled. Those two fields only feed the log file, which is left out.
- Writer.EventWriterMongoSync.constructor: requires `bulkSize != 0`. In Java, a zero `bulkSize` makes `cnt % bulkSize` at :130 throw `ArithmeticException`, which ends the thread; that failure is not modelled.
- Writer.EventWriterMongoSync.Add: does not model the 32-bit wrap-around of `cnt` after 2^31 - 1 data records. `cnt` is an unbounded `nat`.
- Batching.Quot: the elapsed time and the quotient are unbounded integers. Overflow of `long` is not modelled.
- `logSize` is modelled as the constant `LogSize = 10000`. The field has that fixed initial value and no setter (:52), so it cannot be configured.
- Writer.EventWriterMongoSync.Benchmark: a report is not issued on every `LogSize`-th data record. When no time has elapsed since the last report, that count is skipped (:145). The contract therefore states "at most once, in increasing order" rather than "exactly once".
- Writer.EventWriterMongoSync.Step: the count and idle-gap drain at :130-138 runs even after a heartbeat has drained. This is proved to issue no write, rather than being short-circuited.
- Writer.EventWriterMongoSync.Run: stops after a finite stream, where the source loops forever. No-loss is stated at the end of a stream that ends with a heartbeat. At every other point it is kept as the class invariant `Accounted`.
