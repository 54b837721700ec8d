# backtester_api core, modelled in Dafny

This project models the orchestration core of `backtester_api`, a Rocket HTTP
server that backtests W/M-pattern trading strategies on Binance kline data.
Everything modelled lives in `src/main.rs`. The model has six modules:

- `Partition` (`partition.dfy`): how `test_handler` splits the strategy list
  across `WORKERS = 8` worker threads. The chunk size is
  `chunk_size = (n + 7) / 8`, and the loop keeps the source's branches,
  clamping and early `break`s.
- `Orchestration` (`orchestration.dfy`): each worker takes the slice
  `strategies[start..][..num_elements]` and backtests it. The per-worker
  result lists are concatenated in join order. The backtester of the
  `strategy_backtester` crate is a function parameter `evaluate` that gives
  one result per strategy.
- `PostProcessing` (`postprocessing.dfy`): the "affined" copy keeps the
  results with more than 100 closed trades. `money_evolution` is cleared in
  place on both vectors, and the four result files are written in order.
- `DownloadQueue` (`download_queue.dfy`): the `/dl` handler, the channel,
  the FIFO download pool and the advisory `is_downloading_data` flag. It is
  modelled as a class whose methods each perform one atomic step of
  `kline_data_dl_handler` or `kline_dl_manager`.
- `Retrieval` (`retrieval.dfy`): the window arithmetic of
  `retreive_test_data`, and the server time that falls back to 0 when the
  time lookup fails. Arithmetic on `u64` is checked: leaving the range is a
  panic outcome. The answers of the Binance market-data service are an
  oracle sequence, and a call past the end of that sequence fails.
- `Wrappers` (`wrappers.dfy`): the `Option` type shared by the download
  queue and the retrieval model.

The main results:

- The chunks tile `[0, n)` exactly, and every slice is in range.
- Merging the per-worker results gives one result per strategy, at the
  strategy's own position.
- The affined filter keeps order, is idempotent and commutes with clearing.
- Jobs are downloaded in request order, and the busy flag only changes the
  response text.
- A retrieval either panics exactly as the checked arithmetic dictates, or
  makes at most 101 calls, keeps at most 100 batches, and stops at the first
  failed call.

## Model

| member | source | states |
|---|---|---|
| Partition.ChunkSize | src/main.rs:137 | chunk_size is the ceiling of n / WORKERS: WORKERS chunks of it hold all n strategies, one unit less would not (so it is 0 for an empty list), and it is at least 1 when there is any strategy |
| Partition.OffsetIsProduct | src/main.rs:139 | the running offset used for worker i's start equals `i * chunk_size` |
| Partition.SpawnChunks | src/main.rs:138-165 | the partition loop, with its branches, clamping and breaks, spawns exactly the chunks of the reference plan for any chunk size that leaves nothing beyond the last worker |
| Partition.SplitWork | src/main.rs:136-165 | the (start, num_elements) pairs the loop spawns for n strategies are exactly Plan(n) |
| Partition.PlanTiles | src/main.rs:138-155 | the spawned chunks are non-empty, start at 0, each begins where the previous one ends, and the last ends at n |
| Partition.PlanCovers | src/main.rs:138-155 | the chunk lengths sum to n; every chunk is non-empty and ends at or before n, so each slice taken is in range; chunks are contiguous and pairwise disjoint |
| Partition.PlanShape | src/main.rs:137-151 | at most WORKERS chunks; chunk k starts at k * chunk_size; every chunk but the last holds exactly chunk_size strategies and the last between 1 and chunk_size |
| Partition.SmallPlans | src/main.rs:138-148 | with fewer strategies than workers, exactly one worker per strategy is spawned, worker k getting strategy k alone (none at all for an empty list) |
| Partition.ThirtySevenStrategies | src/main.rs:136-151 | 37 strategies are split into seven chunks of 5 and one of 2 |
| Orchestration.Slice | src/main.rs:155 | the slice of a chunk has the chunk's length and holds strategies start .. start + len - 1 in order |
| Orchestration.BacktestChunk | src/main.rs:157-163 | a worker returns one result per strategy of its chunk, in chunk order |
| Orchestration.MergeResults | src/main.rs:167-170 | the join loop's result is the per-worker lists concatenated in spawn order, and its length is the sum of their lengths |
| Orchestration.FlattenLength | src/main.rs:167-171 | the merged list is exactly as long as all per-worker lists together |
| Orchestration.PlanReassembles | src/main.rs:138-155 | every chunk of the plan is in bounds, and the slices of the plan, concatenated in worker order, are the original strategy list |
| Orchestration.Dispatch | src/main.rs:155-164 | one result list per spawned chunk, in spawn order; the list of chunk k is as long as the chunk and holds the backtest of each of its strategies in order |
| Orchestration.DispatchMerges | src/main.rs:155-170 | for chunks tiling a range, merging the per-chunk results gives the results of that range of strategies in order |
| Orchestration.RunBacktests | src/main.rs:136-170 | a whole run returns exactly one result per strategy, and result k is the backtest of strategy k |
| PostProcessing.Affined | src/main.rs:176-180 | the affined vector is no longer than the results, holds only results with more than 100 closed trades, and is a sub-multiset of the results |
| PostProcessing.AffinedAppend | src/main.rs:176-180 | the filter distributes over concatenation of result lists |
| PostProcessing.AffinedIsSubsequence | src/main.rs:176-180 | the affined results appear in the same relative order as in the full results |
| PostProcessing.AffinedMembership | src/main.rs:176-180 | a result is in the affined vector if and only if it is a result with more than 100 closed trades |
| PostProcessing.AffinedIdempotent | src/main.rs:176-180 | filtering the affined vector again changes nothing |
| PostProcessing.Cleared | src/main.rs:191 | clearing one result empties its money evolution, keeps its closed-trade count and other fields, and keeps whether it is affined |
| PostProcessing.ClearedAll | src/main.rs:191 | clearing keeps the length and order and every field but the money evolution, which becomes empty |
| PostProcessing.ClearMoneyEvolution | src/main.rs:207-209 | the in-place loop over the vector leaves exactly the cleared copy of its old contents |
| PostProcessing.ClearCommutesWithAffined | src/main.rs:176-209 | clearing the money evolutions never changes which results are affined: filter-then-clear equals clear-then-filter |
| PostProcessing.WriteResults | src/main.rs:176-215 | the four files hold, in order, the full results, the full results cleared, the affined results, and the affined results cleared; clearing the full vector does not reach the affined copy |
| DownloadQueue.DownloadResponse | src/main.rs:230-244 | the /dl answer has status success, and its message is the downloading or queuing prefix chosen by the flag, followed by `symbol-interval` |
| DownloadQueue.BusyOnlySelectsMessage | src/main.rs:230-244 | the /dl answer is always a success whose message ends with `symbol-interval`; the busy flag only selects between two distinct texts |
| DownloadQueue.DownloadManager.constructor | src/main.rs:310-312 | a new manager has an empty channel and pool, nothing downloaded, and the flag down |
| DownloadQueue.DownloadManager.HandleDownloadRequest | src/main.rs:230-252 | the handler answers according to the flag it read and enqueues the job on the channel in every case |
| DownloadQueue.DownloadManager.ReceiveJob | src/main.rs:302-305 | the receiver moves the oldest sent job to the tail of the pool, or changes nothing when none was sent |
| DownloadQueue.DownloadManager.RaiseFlagIfPending | src/main.rs:267-273 | the flag is raised exactly when the pool holds a job, and otherwise keeps its value |
| DownloadQueue.DownloadManager.TakeJob | src/main.rs:275 | `remove` yields the head of the pool and drops it, or nothing on an empty pool |
| DownloadQueue.DownloadManager.Download | src/main.rs:276-290 | a processed job is recorded after the ones before it |
| DownloadQueue.DownloadManager.LowerFlag | src/main.rs:293-297 | the flag is down at the end of every pass |
| DownloadQueue.DownloadManager.DrainPass | src/main.rs:266-298 | one pass downloads every pooled job in FIFO order, leaves the pool empty and lowers the flag |
| DownloadQueue.ServeInOrder | src/main.rs:230-305 | jobs requested of an idle manager are all answered with success and are downloaded in exactly the order requested |
| DownloadQueue.BusyFlagLifecycle | src/main.rs:230-298 | the flag reads false, then true while a job is processed, then false; a request arriving meanwhile is told a download is running, is queued anyway, and is processed after the first in the same pass |
| Retrieval.ServerTimeOrZero | src/main.rs:276-284 | the server time is the lookup's answer, or 0 when the lookup failed |
| Retrieval.FirstWindow | src/main.rs:338-339 | the first window starts 100 windows (6,000,000,000 ms) before the server time, ends 99 windows before it, and lasts one window |
| Retrieval.NextWindow | src/main.rs:356-357 | the next window starts one minute after the previous one ends, so strictly after it, and lasts one window |
| Retrieval.WindowAtClosedForm | src/main.rs:338-357 | window k starts at server_time - 100 * 60,000,000 + k * 60,060,000 and lasts 60,000,000 ms |
| Retrieval.WindowEndsGrow | src/main.rs:356-357 | a window with a larger index ends strictly later, so no later window ends earlier |
| Retrieval.BatchesFrom | src/main.rs:342-364 | the loop keeps at most 100 batches; every call before the stop succeeded, and a stop short of 100 is at a failed call |
| Retrieval.RetrieveSpec | src/main.rs:335-364 | a retrieval panics on the first subtraction if and only if the server time is below 100 * 60,000,000 ms |
| Retrieval.RetrievalShape | src/main.rs:335-364 | a completed retrieval makes one call more than the batches it keeps (at most 100); it starts at the first window; every window lasts 60,000,000 ms and stays in the u64 range; each next window starts one minute after the previous end; it stops at the first failed call or after 100 batches |
| Retrieval.RetrieveTestData | src/main.rs:335-364 | the loop, with countdown i, batch counter j and checked u64 arithmetic, yields exactly RetrieveSpec: the same windows requested, the same klines kept in call order, or the same panic |
| Retrieval.FallbackTimeUnderflows | src/main.rs:338 | with the fallback server time 0 of a failed time lookup, the first window's subtraction underflows, whatever the market-data service answers |
| Retrieval.RealisticTimesComplete | src/main.rs:335-364 | for a server time of at least 100 * 60,000,000 ms and far enough below the u64 maximum, the retrieval completes and keeps the klines of every successful call up to the first failure, at most the first 100 calls |
| Retrieval.CollectedLength | src/main.rs:352-354 | the kept klines number exactly the sum of the sizes of the batches appended |
| Retrieval.AllSucceedKeepsHundred | src/main.rs:342-364 | when every call succeeds, the loop makes 101 calls and keeps 100 batches, and the klines kept are exactly those of the first 100 calls: the answer to the 101st call is discarded |

## Left out

- Threads, the mpsc channel, `Mutex`, `Arc` and `AtomicBool` orderings are not modelled. Each handler step and drain step is one atomic operation on `DownloadManager`, so interleavings between them are not explored. That includes the race between reading the flag in the handler and raising it in the drain loop.
- The drain thread's `loop` with its 10-second `sleep` is modelled as single passes (`DrainPass`), not as a non-terminating loop.
- Rocket routing, HTTP and `health_checker_handler` are not modelled. The handlers are methods that return a `GenericResponse`.
- The first part of `test_handler` is not modelled: reading and deserialising the cached kline file, and the "There is no data" error response when that file is missing. This is file I/O.
- Writing JSON files, `serde`, `generate_result_name` with its clock, the result paths and all `println!` output are not modelled. That includes the every-10-batches progress line in `retreive_test_data`. `WriteResults` returns the contents of the four files instead of writing them.
- Building the strategies with `create_w_and_m_pattern_strategies` and the `Backtester` of the `strategy_backtester` crate are external code. They are the parameter `evaluate`, assumed to give one result per strategy.
- `START_MONEY`, the floating-point `ParamMultiplier` ranges and the money evolution's `f64` values are not modelled. Money evolution is a sequence of reals whose values are never inspected.
- The Binance calls `get_server_time` and `get_klines` are oracles: an optional time, and a sequence of per-call outcomes.
- Retrieval.RetrieveTestData: models Rust's debug-build checked `u64` arithmetic, where leaving the range is a panic outcome. A release build wraps around instead, and that behaviour is not modelled.
- DownloadQueue.DownloadManager.Download: only records the job. The lookup of the server time and the retrieval for that job are modelled separately in `Retrieval`. A panic inside a job is not modelled. Such a panic is, for example, the fallback-time underflow that `FallbackTimeUnderflows` exhibits in a debug build. It would end the drain thread with the flag raised. It would also poison `dl_pool`, because the loop at src/main.rs:275 holds the pool's lock guard for the whole body. The receiver's next `dl_pool.lock().unwrap()` (src/main.rs:304) would then panic and drop the channel's receiving end. From then on every `send` (src/main.rs:246-250, result ignored) would silently lose its job, while the handler keeps answering "Already downloading datas. Queuing".
- Partition.SpawnChunks: computes worker i's start `i * chunk_size` as `Offset(i, chunkSize)`, which `OffsetIsProduct` proves equal to the product.
- Partition.SplitWork: uses unbounded naturals. `n + WORKERS - 1` cannot overflow `usize` for the length of an in-memory vector.
- Progress and ETA reporting for a running test, and an "already running" answer on `/test`, do not exist in the code. The model follows the code.
