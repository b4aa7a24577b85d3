# Transfers, permits and accounting of the S3 client

A Dafny model of the crate's concurrent core, with proofs over whole runs:

- the read/write permit pool (`src/pool.rs`), one event per atomic step;
- the transfer engine (`src/client.rs`): splitting, the bounded unordered window, sorting by index, reassembly, complete or abort;
- the public operations put, get, delete, head and list as programs over both, run by any number of clients against one object store;
- the numeric facts of `src/config.rs` and the per-operation lifecycle of `src/metrics.rs`.

`dafny verify dfyconfig.toml` checks everything.

## How it fits together

`Pool` is one half of the pool: a FIFO semaphore that grants whole requests only, the wrapping 64-bit counters `active` and `queued`, and one ticket per call whose phase says which of its steps it has taken. `HalfPools` is the same half as a mutable class, each method proved against `Pool.Apply`. `PoolRuns` and `Piecewise` state what holds of every run.

`Client` composes everything. A `System` has a sequence of validated clients (client `c` owns half `2c` for reads and `2c + 1` for writes), the operations ever called, one `Server.Store` and a clock. Its events are: a call arrives, time passes, the store handles one delivery of one request, an operation takes one step (including a timeout while waiting, or having its future dropped at any await). `Client.Reaches` says that a run of such events leads from a start to a state; the main results are about every such state. What an operation asks for, sends and concludes is in `Program`. A request may be handled several times, up to the configured attempts, and even after its operation has gone on or ended; a result handed to an operation is a reply to that very request or a network failure. Refusing a request, etags, the presence of optional response fields (the length in a HEAD response among them) and truncation are the store's free choice. Reporting to metrics and dropping the record are steps of their own, placed where each operation's code has them: `delete_object` and `list_objects` report with the permit still in scope and leave by `?` on a pool error, everything else returns from a helper first.

`Shapes`, `Permits`, `Transcript`, `Ownership` and `Atomicity` hold the invariants, in that order: branch selection and window shape; who owns which permit; what has been sent and where results come from; whose upload is whose; that every object is whole. `Ceiling`, `Overshoots`, `Progress`, `Deadlocks`, `Lifecycle`, `Uploads`, `Reads`, `Versions`, `Tears` and `Accounting` are the main results on top; `Scenarios` builds the runs that show something can happen. `Meters` is the record of an operation as a value; the machine and the class of `Metrics` are both tied to it. The store's contracts are those of the Amazon S3 API Reference and, for byte ranges, section 14.1.2 of RFC 9110.

## Where the code and its documentation differ

The model follows the code.

- `queued` is documented as the number of waiting callers (README.md:144), and interview/solution.rs:183 says its decrement always runs. A caller dropped while waiting never decrements it; `PoolRuns.QuiescentPool` gives the exact residue and `PoolRuns.QueuedLeaks` runs that leave any residue.
- The check `connections >= concurrency + 1` is documented as deadlock prevention (docs/design.md:129). At `usize::MAX` the addition wraps in a release build and the check passes. `Deadlocks.StuckIff` gives the exact condition for clients to get stuck, `Deadlocks.ValidatedStuckIff` what it means for accepted options, and `Deadlocks.WrappedDeadlocks` an accepted deadlock.
- A bulk request counts `n` in `active` but asks the semaphore for `n as u32`. `PoolRuns.ActiveWithinCapacityIff` shows that `active` stays within the capacity exactly when `n` is below 2^32 or its cast is too large ever to be granted, `Overshoots.CeilingIff` says the same of the composed machine, and `PoolRuns.UnderflowIff` says when a drop can underflow it.
- A report's duration is documented as excluding the queue wait (README.md:140). The wait of an acquisition that fails or is dropped is never subtracted; `Accounting.TimeSplitsExactly` says when the claim holds.
- `delete_object` and `list_objects` leave by `?` on a pool timeout, so that error is counted as cancelled (`Accounting.TimeoutsCounted`, with a run in `Accounting.TimeoutShown`).
- A ranged get compares no versions. `Reads.GetReturnsObject` holds while the key is unchanged and `Versions.GetReadsVersions` says what is read otherwise. `Tears.TearsIff` gives the exact condition under which a get can return data that was never an object: the guard that selects the ranged path.
- The client does not enforce the 10,000-part limit. The store does, so a larger body is never written (`Lifecycle.TooLargeNeverStored`); `Uploads.PutsIff` says exactly which puts can succeed.
- The comment at tests/integration.rs:240 speaks of eight ranges; with the 5 MiB minimum chunk those bodies are a single range.

## Model

| member | source | states |
|---|---|---|
| Pool.RunKeepsInv | src/pool.rs:61-121 | after every interleaving of any number of calls: available + granted + admitted + held permits equal the capacity; `active` and `queued` equal the calls between their add and subtract (modulo 2^64); the line holds exactly the waiting calls, each once |
| Pool.StepKeepsPermits | src/pool.rs:20-40 | no step creates or loses a permit: not success, timeout, a drop while waiting, a drop after the grant, or the drop of the permit object, which returns its permits last |
| Pool.StepKeepsCounters | src/pool.rs:63-77 | both wrapping counters track their totals across every step |
| Pool.StepKeepsLine | src/pool.rs:69 | the line stays a duplicate-free list of exactly the waiting calls |
| Pool.FetchTracks | src/pool.rs:22-36 | `fetch_add` and `fetch_sub` track an exact total modulo 2^64 |
| PoolRuns.Fifo | src/pool.rs:1-5 | in every run, grants so far followed by the line equal the enqueue order with the withdrawn removed: no overtaking |
| PoolRuns.BoundedBypass | docs/design.md:63 | a waiter at position k that is served is served after at most k grants, all to calls ahead of it, so single requests cannot starve a bulk one |
| PoolRuns.OversizedNeverGranted | interview/INTERVIEWER_GUIDE.md:106-109 | no run grants a request that, as the semaphore sees it, exceeds the capacity |
| PoolRuns.GrantableIff | src/pool.rs:97-98 | some run grants a request of n if and only if `n as u32` is at most the capacity |
| PoolRuns.ActiveExact | src/pool.rs:77-78 | while every live permit object counts less than 2^32, `active` is the exact number of permits behind them and at most the capacity |
| PoolRuns.DropNeverUnderflows | src/pool.rs:20-40 | both debug assertions hold, whatever the counts, while the counts of the live permit objects add up to less than 2^64 |
| PoolRuns.UnderflowIff | src/pool.rs:34-40 | the debug assertions hold at every drop of every run if and only if the counts that can be held at once (as many bulk reservations as fit after the cast, single ones in the rest) stay below 2^64 |
| PoolRuns.ActiveWithinCapacityIff | src/pool.rs:98-110 | for every `usize` n and every capacity the semaphore accepts: `active` stays within the capacity in every run if and only if n is below 2^32 or `n as u32` exceeds the capacity, so that it is never granted |
| PoolRuns.AcquireReaches | src/pool.rs:89-121 | acquisitions of any counts whose casts fit together are all served one after another, and `active` is the sum of the counts modulo 2^64 |
| PoolRuns.QuiescentPool | src/pool.rs:61-121 | when all calls have finished, all permits are back, `active` is 0, the line is empty, and `queued` is exactly the number of futures dropped while queued |
| PoolRuns.QueuedLeaks | src/pool.rs:63-70 | for every k some run of k callers dropped while waiting ends idle, at full capacity, with `queued` at k (modulo 2^64) |
| PoolRuns.SomebodyMoves | src/pool.rs:61-121 | when every request fits the half, some call can move without arrival, timeout or cancellation |
| PoolRuns.StuckIffOversized | interview/solution.rs:206-222 | for every capacity: a half has a reachable stuck state if and only if the reservation, as the semaphore sees it, exceeds the capacity, or there is no permit at all |
| Piecewise.StuckIff | interview/solution.rs:207-219 | collecting permits one by one, k callers wanting w each can block each other for ever if and only if the capacity is at most k(w-1) |
| Piecewise.AllOrNothingMatters | interview/solution.rs:207-222 | where the one-by-one variant has a reachable stuck state, the atomic reservation has none |
| Piecewise.PermitsConserved | interview/solution.rs:214-218 | the one-by-one variant also conserves permits, so its stuck states are not leaks |
| HalfPools.HalfPool.constructor | src/pool.rs:51-59 | a new half has all permits available, zero counters and nobody in line |
| HalfPools.HalfPool.BeginAcquire | src/pool.rs:61-63 | a call increments `queued` and gets a fresh ticket; the invariant is kept |
| HalfPools.HalfPool.EnterLine | src/pool.rs:69 | the first poll appends the call to the line and changes nothing else |
| HalfPools.HalfPool.TryServe | src/pool.rs:97-98 | serves the head if and only if its whole request is available; otherwise nothing changes, whoever stands behind it |
| HalfPools.HalfPool.TimeOut | src/pool.rs:69 | an elapsed timer takes only its own call out of the line, in place |
| HalfPools.HalfPool.Wake | src/pool.rs:69-76 | `queued` is decremented on the success and on the timeout path; success means the permits were granted |
| HalfPools.HalfPool.BuildPermit | src/pool.rs:77-86 | the permit object's count is added to `active` and nothing else changes |
| HalfPools.HalfPool.DropPermit | src/pool.rs:34-40 | subtracts the permit's own count, before the permits are available again; the debug assertion holds while the live counts stay below 2^64 |
| HalfPools.HalfPool.ReturnPermit | src/pool.rs:27-32 | the inner semaphore permit returns exactly what was granted |
| HalfPools.HalfPool.Cancel | src/pool.rs:63-70 | a future dropped at its await returns any granted permits and leaves `queued` incremented |
| HalfPools.HalfPool.AcquireAlone | src/pool.rs:61-121 | on a half nobody else waits for, the whole call succeeds if and only if the request fits what is available, and on failure leaves permits, counters and line as they were |
| HalfPools.HalfPool.AcquireAndDrop | src/pool.rs:20-40 | acquiring and dropping leaves the permits, both counters and the line as they were, on success and on failure |
| Config.ValidatedLeavesSpareIff | src/config.rs:121-145 | an accepted configuration has a chunk of at least 5 MiB and positive concurrencies, and a spare connection per side if and only if that concurrency is not `usize::MAX` |
| Config.ValidatedFitsIff | src/config.rs:131-145 | the bulk reservations of an accepted configuration fit its pools if and only if each side's concurrency is below `usize::MAX` or its connections are at least 2^32-1 |
| Config.WrappedConcurrencyAccepted | src/config.rs:134-145 | some options pass validation although no bulk reservation fits the pool |
| Config.S3ConfigBuilder.MaxThroughput | src/config.rs:81-90 | the preset validates whatever was set before, with 64 MiB chunks, concurrency 16, 20 connections per side and a timeout of 300 seconds |
| Split.PieceCount | src/client.rs:277 | `div_ceil`: at most k pieces if and only if at most k full chunks of bytes |
| Split.PieceBounds | src/client.rs:293-300 | every piece is non-empty and inside the body, all but the last exactly one chunk long, each ending where the next begins |
| Split.PieceOf | src/client.rs:388-393 | byte p lies in piece p / chunk and in no other |
| Split.Tiling | src/client.rs:293-301 | the slices in order are the body |
| Split.RangeDenotesPiece | src/client.rs:403 | the header `bytes=start-(end-1)` denotes exactly the planned piece and the saturating subtraction never saturates |
| Split.MachineArithmeticExact | src/client.rs:293-298 | for totals up to 2^63-1 and any `usize` chunk, `i * cs` and `start + cs` never wrap |
| Split.PartNumbersExactIff | src/client.rs:297 | `(i + 1) as i32` is exact for every part if and only if the total is at most 2^31-1 chunks |
| Window.RunKeepsInv | src/client.rs:305-338 | every run of the unordered window keeps at most `cap` jobs in flight, splits the started prefix into in flight and done without repetition, and has one step per start and per result |
| Window.NeverBlocks | src/client.rs:336-338 | the window is done, can start a job, or has one in flight |
| Window.CompleteIsPermutation | src/client.rs:337 | at the end every job has exactly one result |
| Sorting.SortSorts | src/client.rs:365 | sorting orders by key, keeps the elements, and keeps entries of equal key in the order they came in |
| Sorting.SortRestoresOrder | src/client.rs:437 | sorting by a distinct index undoes every completion order |
| Sorting.SortPlaces | src/client.rs:437 | each entry lands at its own index |
| Server.ExecuteAnswers | src/client.rs:324-329 | the store refuses a request, or answers it with the kind of reply the client decodes; part numbers 1 to 10,000 only |
| Shapes.RoundsNotEmpty | src/client.rs:68-95 | every window has a job and a positive width of at most the permits reserved, even with threshold 0 |
| Shapes.RunKeepsShapes | src/client.rs:68-95 | in every run each operation is on the branch its size selects, under the reservation of that branch, with a well-formed window |
| Permits.Projection | src/pool.rs:123-154 | isolation: the steps of any interleaved run on one half are, alone, a run of a lone half with the same final state |
| Permits.SidesSeparate | src/client.rs:106-200 | put and delete step only on their client's write half; get, head and list only on its read half |
| Permits.ClientFifo | docs/design.md:63 | within the whole machine each half still grants in enqueue order minus withdrawals |
| Permits.RunKeepsGood | src/client.rs:157-179 | every operation inside the pool, transferring or giving its permit back owns exactly one live ticket of its half with its count, and every live ticket has such an owner |
| Permits.StepOnCalls | src/client.rs:279-290 | an operation's step moves only its own call, by one phase |
| Ceiling.ConnectionCeiling | src/client.rs:279-379 | in every reachable state each operation's requests in progress are at most the permits it holds, and `active` is the permits held modulo 2^64; on every side that cannot overshoot (concurrency below 2^32, its cast more than the connections, or, for reads, no connection at all) it is exactly those, and at most the configured connections |
| Payments.RunPaid | src/client.rs:157-290 | in every run whatever an operation transfers, it transfers under a reservation that fits its half after the cast; a ranged get reserves only after a HEAD |
| Overshoots.CeilingIff | src/pool.rs:98-110 | for every client and side: `active` stays within its connections in every run of the composed machine if and only if that side cannot overshoot; otherwise a run of puts, or of gets after their HEADs, puts it above |
| Overshoots.WrappedCeiling | src/config.rs:134-139 | with the accepted concurrency `usize::MAX`, `active` never exceeds 15 connections, and exceeds 2^32-1 in some run |
| Progress.NeverStuck | src/config.rs:131-145 | when the reservations of all clients fit, every reachable state with an unfinished operation has an event that is no timeout, no cancellation and no network failure |
| Progress.RunLively | src/client.rs:43-46 | in every run each request sent has been answered by the store or can still be handled |
| Progress.HeadIsServed | src/client.rs:84-95 | if everybody unfinished is in line, some head of a line can be granted: nobody waits while holding permits |
| Progress.StepDescends | src/client.rs:63-155 | every step of an operation, timeouts and cancellations included, and every delivery descends a well-founded order |
| Progress.CanAlwaysDrain | src/client.rs:63-155 | when the reservations of all clients fit, from every reachable state all operations can be brought to their end by the store's own answers |
| Progress.EndedPoolsFull | src/pool.rs:20-40 | when all operations have ended every half is back at full capacity |
| Deadlocks.StuckIff | src/config.rs:131-145 | some run leads to an unfinished state in which nothing goes on without a timeout, a cancellation or a network failure, if and only if some client has a half without connections or a bulk reservation that, after the cast, exceeds its half |
| Deadlocks.DrainsIff | src/client.rs:63-155 | every state of every run can be drained by the store's answers alone if and only if the reservations of every client fit |
| Deadlocks.HopelessStays | src/pool.rs:97-98 | an operation waiting for more permits than its half has waits for ever, whatever else happens short of a timeout or a cancellation |
| Deadlocks.ValidatedStuckIff | src/config.rs:112-164 | clients built from accepted options can get stuck if and only if one of them has a concurrency of `usize::MAX` with fewer than 2^32-1 connections on that side |
| Deadlocks.WrappedDeadlocks | src/config.rs:134-145 | some options pass `connections >= concurrency + 1` and their client deadlocks |
| Deadlocks.ValidatedRunsDrain | src/config.rs:112-164 | every run of the other accepted clients can be extended to an end with all connections returned |
| Transcript.StepOnScript | src/client.rs:273-443 | the requests an operation has sent are exactly the script of its rounds, in order, each once; a dropped operation stopped along it |
| Transcript.StepSourced | src/client.rs:339-379 | every conclusion is computed from one result per job, each a reply to that job's request or a network failure |
| Manifests.FirstFaultIs | src/client.rs:341-348 | the error kept is the first in completion order; none is kept if and only if all parts succeeded |
| Manifests.FewEnough | src/client.rs:277 | an upload whose parts all succeeded has at most 10,000 of them |
| Manifests.ManifestExact | src/client.rs:365 | after sorting, the part list is numbered 1 to n in order |
| Manifests.ManifestEntry | src/client.rs:327-330 | each entry carries the etag returned for its own part |
| Ownership.ApplyKeepsHonest | src/client.rs:282-330 | every operation sends only requests for its own key, its own uploads and its own slices, in every reachable state |
| Ownership.PartsStored | src/client.rs:327-330 | no fault among the results if and only if every part was stored with an etag |
| Atomicity.ManifestAssembles | src/client.rs:364-379 | a numbered manifest over parts of one body assembles exactly that body |
| Atomicity.DeliveryWrites | src/client.rs:178-192 | a delivery writes its sender's whole body under its key exactly when it answers a PutObject or a Complete with success, removes the deleter's key exactly when it so answers a DeleteObject, and changes no object otherwise |
| Atomicity.PutAtomicity | src/client.rs:178-380 | in every state of every run each object is the initial one or exactly the whole body of a put whose PutObject or Complete the store has handled, and an initial object is missing only if the store has handled a delete of it |
| Atomicity.AbortedNeverStores | src/client.rs:349-363 | a put that sent Abort, or that the pool turned away, never has a PutObject or Complete handled, in any reachable state |
| Atomicity.AcknowledgedStored | src/client.rs:366-379 | an acknowledgement held by an unfinished put means its body was the object at some moment since its call |
| Atomicity.OkPutWasStored | src/client.rs:63-78 | a put that returned Ok had its whole body stored at some moment between call and return |
| Accounting.ReportedOnce | src/metrics.rs:41-90 | whichever way an operation leaves its code (`finish`, the early `m.err` of a get, `?`, a dropped future), it has reported nothing without an outcome, at most once before it ends and exactly once after: as its outcome says, except that a delete or list turned away by the pool is reported cancelled |
| Lifecycle.MultipartLifecycle | src/client.rs:273-380 | every multipart put that ends on its own failed to get an upload id, or sent every part once and settled all, then sent exactly one Complete (if and only if all parts succeeded) or Abort; otherwise the error is the first failure in completion order |
| Lifecycle.ManifestValid | src/client.rs:293-365 | every Complete ever sent lists parts 1 to n, n from 1 to 10,000, each with its own slice's etag, all but the last exactly one chunk of at least 5 MiB |
| Lifecycle.CompleteAccepted | src/client.rs:366-379 | while the upload is live and no etag was replaced, the store, unless it refuses, accepts that Complete and stores the whole body |
| Lifecycle.TooLargeNeverStored | src/client.rs:277 | in no run does a body above the threshold that needs more than 10,000 chunks get written, and its put never returns Ok |
| Uploads.PutsIff | src/client.rs:178-380 | for every configuration and every body: some run has a put of it that returns Ok if and only if, up to the threshold, the client has a write connection, and above it, the write concurrency after the cast fits the connections and the body needs at most 10,000 chunks |
| Uploads.MultipartPut | src/client.rs:273-380 | the run of the multipart path: create, every part, complete; the put ends Ok and its body is the stored object |
| Uploads.SucceededFits | src/client.rs:178-380 | a put that returned Ok, in any run of any clients, had a reservation that fits and few enough parts |
| Reads.AssembleInOrder | src/client.rs:432-442 | whatever the completion order, the result is the pieces in index order |
| Reads.GetReturnsObject | src/client.rs:80-104 | in every run, a get that returns data returns exactly the object if that was unchanged from before the call |
| Reads.RoundTrip | src/client.rs:63-104 | a put that returned Ok was stored at some step; a get called after it, the object unchanged, returns exactly that body, for any two configurations and all completion orders |
| Reads.TornRead | src/client.rs:396-442 | ranges answered from two versions of equal length give the front of one and the back of the other, which is one of the versions if and only if the two agree on the other part |
| Tears.TearsIff | src/client.rs:91-95 | for every configuration and every length an i64 can hold: some run has a get whose HEAD said that length and which returns data that was the object at no moment, if and only if the length is above the multipart threshold and the client can get the permits for HEAD and for a ranged get |
| Tears.TornRun | src/client.rs:382-443 | the run: HEAD, another client's put, then all ranges; the get ends Ok with bytes of the new object cut to the old length |
| Tears.TornIsRanged | src/client.rs:91-95 | a get that returns data nobody stored was planned above the threshold, in every run of any clients |
| Versions.GetReadsVersions | src/client.rs:80-104 | whatever is written meanwhile: a simple get returns the object as it was at one moment between call and return; a ranged get is a splice of its planned ranges, each read from the object at some moment of that interval, of a total the object had |
| Versions.RepliesWereTrue | src/client.rs:404-421 | every reply an unfinished operation was given was true of the store at some moment since its call |
| Loops.CollectParts | src/client.rs:339-348 | the loop yields the completed parts in completion order and the first error |
| Loops.SettleUpload | src/client.rs:349-379 | abort with the first error if there is one, else complete with the sorted parts |
| Loops.Reassemble | src/client.rs:432-442 | the loop returns the first error or the concatenation in index order |
| Listing.PaginatedList | src/client.rs:225-271 | for every page size the loop ends and collects every row of the listing exactly once; recursively that is exactly the matching objects; otherwise the returned entries are distinct and show every matching object exactly once |
| Listing.RowsExact | src/client.rs:234-264 | rows are distinct, come from matching objects, and every matching object has its row |
| Listing.RecursiveIsMatching | src/client.rs:140-142 | a recursive listing is exactly the matching objects |
| Listing.ShownOnce | src/client.rs:140-142 | in a non-recursive listing every matching object is shown by exactly one row, itself or one common prefix |
| Listing.EntriesShowOnce | src/client.rs:140-142 | among the entries a non-recursive listing returns, every matching object is shown by exactly one, itself or one folder, and no entry comes twice |
| Listing.EntryKinds | src/client.rs:253-264 | an entry is folder-shaped if and only if it comes from a common prefix: no object is mistaken for a folder |
| Listing.CommonIsOwn | src/client.rs:253-264 | a listed common prefix of a key is the one that key is rolled up into |
| Accounting.OperationsConserved | src/metrics.rs:7-90 | in every reachable state and per kind: total = ok + err + cancelled + not yet reported, each counter counting exactly the reporting operations whose outcome is recorded so |
| Accounting.TimeoutsCounted | src/client.rs:106-155 | in every reachable state, for put, get and head the err counter is the operations that reported after an error; for delete and list the pool's timeouts are in the cancelled counter instead |
| Accounting.TimeoutShown | src/client.rs:110 | for every client and every kind of operation some run ends with the pool's timeout returned, counted as an error, or, for a delete or a list, as a cancellation and no error |
| Accounting.BytesCounted | src/metrics.rs:33-50 | in every reachable state the byte counters are exactly the bodies of the puts and the data of the gets that reported success |
| Accounting.TimeSplitsExactly | src/metrics.rs:67-80 | in every report of every run, latency is the time inside the pool plus the time outside, and the queue wait is the time inside but for the wait of an acquisition that failed or was dropped; the duration excludes the waiting if and only if there was no such wait, as for every operation neither turned away nor dropped; nothing saturates |
| Accounting.WaitsBounded | src/client.rs:157-202 | a get waits for permits at most twice and everything else at most once, whatever the number of parts |
| Metrics.OpMetrics.constructor | src/metrics.rs:7-17 | starting counts the operation and starts from zero |
| Metrics.OpMetrics.AddQueueWait | src/metrics.rs:29-31 | adds any duration to the waits and changes nothing else |
| Metrics.OpMetrics.Sent | src/metrics.rs:33-35 | adds to the bytes sent and changes nothing else |
| Metrics.OpMetrics.Recv | src/metrics.rs:37-39 | adds to the bytes received and changes nothing else |
| Metrics.OpMetrics.RecordAs | src/metrics.rs:67-80 | makes one report, that of the machine; a zero wait is not added to the histogram of waits |
| Metrics.OpMetrics.Ok | src/metrics.rs:41-58 | counts one success and the bytes, and marks the record done |
| Metrics.OpMetrics.Err | src/metrics.rs:60-65 | counts one error, in total and for its kind, no bytes, and marks the record done |
| Metrics.OpMetrics.Drop | src/metrics.rs:83-90 | counts and reports one cancellation if and only if nothing was recorded before |
| Metrics.OpMetrics.Leave | src/client.rs:446-451 | finishing or not, then dropping, counts exactly one outcome and makes one report; bytes only for successes; latency is wait plus duration |

## Left out

- The AWS SDK, HTTP, TLS, signing, credentials, endpoints: replaced by the store's contracts.
- The internals of tokio's semaphore and timer: FIFO, all-or-nothing grants and release on drop are taken as the primitive's specification. A closed semaphore does not occur.
- Timer durations: a timeout may fire at any time while waiting. The clock is one reading shared by all operations; nothing depends on its rate.
- Retries whose successor wraps to 0 as u32 (src/client.rs:45): nothing in the repository says what the SDK makes of zero attempts; a request is taken to be sent at least once.
- Retry timing and which errors are retried: a request is handled at most the configured number of attempts, at any time; a network failure can be reported at any time, whatever the store did.
- Network liveness: nothing forces the store to answer. The progress results say that its answers suffice, not that they come.
- Gauges, float rates, HTTP and time-to-first-byte counters, tracing: output only. The metric counters are unbounded. Errors are counted by kind in the class of `Metrics`, in total in the composed machine.
- Error classification and messages: a failure is an abstract fault.
- Required-string checks, setters and `Debug` in src/config.rs; checksums and timestamps.
- Overflow panics of debug builds: arithmetic wraps as in a release build, with 64-bit `usize`. `Semaphore::new` panics above its maximum.
- Pages in the composed machine: an operation that lists holds its permit for a bounded number of page requests of unspecified content. The pagination loop itself is in `Listing`, against an unchanging bucket with content tokens reduced to positions.
- Async functions are state machines over their awaits; `sort_by_key` is a function rather than an in-place update, so its temporary states are not captured.
- interview/solution.rs is a twin of src/pool.rs and is modelled once; interview/template.rs, examples and roadmap items are not modelled.
- HTTP bodies are byte strings, not streams: a body that fails half-way is a network failure of its request.
