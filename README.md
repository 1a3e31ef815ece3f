# pfinance background engine — Dafny model

This project models the three small stateful components of the pfinance Go
backend that hold real logic:

- **TTL cache** (`pkg/cache/cache.go`): a generic map from keys to items
  `{value, expiry}`. `Set` overwrites with expiry `now + ttl`; `Get` evicts an
  expired hit lazily and reports a miss; `Pop` deletes first and then reports
  whether the entry was still live; `Remove` deletes unconditionally; a
  periodic sweep deletes every expired entry. Expiry is strict
  (`item.isExpired` is `now.After(expiry)`), so an entry is live at exactly its
  expiry instant. The clock is an explicit `now: int` argument in nanoseconds.
- **Background worker** (`pkg/worker/worker.go`): a FIFO queue of tasks, the
  pending counter `len`, one replaceable middleware and a reference to the
  shared result cache. One iteration of `Run` is split into `Begin` (take the
  head of the queue) and `Finish` (run the job through the middleware, store
  `TaskResult{value, error}` under the task's name with the effective TTL,
  decrement `len`), so the object invariant states that `len` counts the
  queued tasks plus the at most one task in flight. A job is a function from
  its origin context to the `(value, error)` pair it yields. `Shutdown` is
  modelled as its decision logic over the sequence of pending counts its polls
  observe and whether the caller's context was done at each poll.
- **Status recorder** (`internal/middleware/status_recorder.go`): the first
  `WriteHeader` wins and is forwarded once; `Write` forwards the bytes,
  captures all of them in the body, keeps the last non-nil error and returns
  the wrapped writer's answer unchanged. The wrapped `http.ResponseWriter` is
  `ResponseSink`, which records what it receives; what it answers to a write
  is a parameter.

Each class method is specified by a pure function of the old state
(`AfterSet`, `AfterGet`, `Without`, `Unexpired`, `Record`/`Drain`,
`AfterWriteHeader`/`AfterWrite`); the lemmas beside them state what the source
promises across several calls. Files: `wrappers.dfy` (Option, Error),
`cache.dfy` (module `TtlCache`), `worker.dfy` (module `Worker`),
`status_recorder.dfy` (module `StatusRecording`).

With the strict comparison, an entry stored with TTL 0 is still found by a
`Get` at the same instant (`TtlCache.SetThenGet`). `Use` replaces the
middleware; it does not compose with the previous one
(`Worker.BackgroundWorker.Use`).

## Model

| member | source | states |
|---|---|---|
| TtlCache.Item.IsExpired | pkg/cache/cache.go:91-93 | an item is expired iff now is strictly after its expiry; it is live at exactly its expiry instant and expired one nanosecond later |
| TtlCache.AfterSet | pkg/cache/cache.go:33-42 | `Set` stores exactly `{value, now + ttl}` under the key, overwriting any prior entry; no other key is added, removed or changed |
| TtlCache.AfterGet | pkg/cache/cache.go:44-59 | a `Get` keeps the key iff it was a live hit, deletes nothing else and changes no entry |
| TtlCache.Without | pkg/cache/cache.go:61-66 | deletion removes exactly the key and leaves every other entry unchanged |
| TtlCache.Unexpired | pkg/cache/cache.go:19-27 | a sweep keeps exactly the entries not expired at `now`, each with its value and expiry unchanged |
| TtlCache.SetThenGet | pkg/cache/cache.go:33-59 | after `Set(k, v, ttl)` at `now`, `k` is found with value `v` at every instant up to `now + ttl` (so at `now` even for ttl 0) and at no later one; a hit leaves the map unchanged |
| TtlCache.GetAbsent | pkg/cache/cache.go:48-51 | a key never set is not found and its lookup leaves the map unchanged |
| TtlCache.LazyEvictionInvisible | pkg/cache/cache.go:53-56 | the lazy deletion by `Get` at `now` changes no lookup answer at `now` or later |
| TtlCache.SweepInvisible | pkg/cache/cache.go:18-27 | a sweep changes no lookup answer at its instant or later, and a later sweep after an earlier one equals the later sweep alone |
| TtlCache.RemoveIdempotent | pkg/cache/cache.go:61-66 | `Remove` is idempotent and a no-op on an absent key |
| TtlCache.Cache.constructor | pkg/cache/cache.go:13-16 | a new cache is empty |
| TtlCache.Cache.Set | pkg/cache/cache.go:33-42 | the new map is `AfterSet` of the old one; the error result is always nil |
| TtlCache.Cache.Get | pkg/cache/cache.go:44-59 | `found` iff the key is present and not expired; the value is the stored one whenever the key was present; the new map is `AfterGet` of the old one |
| TtlCache.Cache.Remove | pkg/cache/cache.go:61-66 | the new map is the old one without the key |
| TtlCache.Cache.Pop | pkg/cache/cache.go:68-84 | the key is always deleted; `found` iff it was present and not expired; the value is the stored one whenever it was present |
| TtlCache.Cache.Sweep | pkg/cache/cache.go:21-25 | the loop over the keys leaves exactly `Unexpired(old items, now)` |
| Worker.EffectiveTTL | pkg/worker/worker.go:79-82 | the TTL is the task's when non-zero, else 10 minutes; never zero |
| Worker.DrainKeys | pkg/worker/worker.go:72-92 | after the worker has finished a sequence of tasks, the cache has an entry for every task name and has lost none |
| Worker.DrainLastWins | pkg/worker/worker.go:72-92 | after finishing a sequence of tasks, each name holds the outcome of the last task with that name, stored at its completion instant with its effective TTL; other names keep their entries |
| Worker.ResultVisibleUntilExpiry | pkg/worker/worker.go:74-84 | the last task of a name has its result, error included, found under its name until that result expires |
| Worker.BackgroundWorker.constructor | pkg/worker/worker.go:55-67 | `New` gives an empty queue, `len == 0`, nothing in flight, the identity middleware and the given cache |
| Worker.BackgroundWorker.Enqueue | pkg/worker/worker.go:117-123 | `len` grows by exactly one and the task is appended at the tail; earlier tasks keep their order |
| Worker.BackgroundWorker.Begin | pkg/worker/worker.go:72 | the loop takes the head of the queue; on an empty queue it waits and nothing changes |
| Worker.BackgroundWorker.Finish | pkg/worker/worker.go:74-90 | the cache gets `TaskResult{value, error}` of the middleware-wrapped job under the task's name with the effective TTL, the error stored rather than propagated; `len` drops by exactly one |
| Worker.BackgroundWorker.Step | pkg/worker/worker.go:72-92 | one iteration processes the head of the queue (FIFO), records its result and decrements `len` |
| Worker.BackgroundWorker.RunUntilIdle | pkg/worker/worker.go:70-93 | running while tasks are queued empties the queue, brings `len` to 0 and leaves the cache equal to `Drain` of the queued tasks in enqueue order |
| Worker.BackgroundWorker.Use | pkg/worker/worker.go:133-135 | the middleware slot holds exactly the new middleware; the old one is discarded, not composed |
| Worker.BackgroundWorker.Length | pkg/worker/worker.go:126-130 | the pending count equals queued tasks plus the one in flight, and is never negative |
| Worker.BackgroundWorker.GetResult | pkg/worker/worker.go:137-139 | exactly a cache `Get` of the name, lazy eviction included |
| Worker.BackgroundWorker.Shutdown | pkg/worker/worker.go:96-114 | nil at once when nothing is pending; otherwise nil iff some poll sees zero before the context is done, the timeout error iff the context is done at a poll seeing a non-zero count before any poll sees zero, still waiting otherwise |
| StatusRecording.Fresh | internal/middleware/logging_middleware.go:29 | a fresh recorder has status 200, no header written, no error and an empty body |
| StatusRecording.AfterWriteHeader | internal/middleware/status_recorder.go:20-27 | the first `WriteHeader` sets the status and marks the header written; any later one changes nothing |
| StatusRecording.AfterWrite | internal/middleware/status_recorder.go:31-38 | `Write` appends all of `b` to the body; a failed write sets the error, a successful one keeps the earlier error |
| StatusRecording.FirstHeaderWins | internal/middleware/status_recorder.go:20-27 | over any sequence of calls the recorded status is the first `WriteHeader` code, or the starting code if none; writes never change it |
| StatusRecording.BodyCapturesAllWrites | internal/middleware/status_recorder.go:36 | over any sequence of calls the body is every written byte, in call order |
| StatusRecording.LastErrorKept | internal/middleware/status_recorder.go:33-35 | over any sequence of calls the recorded error is the last failed write's error; successes never clear it |
| StatusRecording.LoggedStatus | internal/middleware/logging_middleware.go:29-38 | the status the logging middleware logs is 200 unless the handler called `WriteHeader`, then its first code |
| StatusRecording.StatusRecorder.constructor | internal/middleware/logging_middleware.go:29 | the recorder starts in the `Fresh` state around the given writer |
| StatusRecording.StatusRecorder.WriteHeader | internal/middleware/status_recorder.go:20-27 | the new state is `AfterWriteHeader`; the code is forwarded to the wrapped writer on the first call only |
| StatusRecording.StatusRecorder.Write | internal/middleware/status_recorder.go:31-38 | returns the wrapped writer's `(n, err)` unchanged, forwards `b` once and the new state is `AfterWrite` |

## Left out

- Concurrency: the cache mutex, the worker's lock and the channel's own synchronisation. Every operation is atomic, so the short window in which `len` has been incremented before the task reaches the channel is not represented; `Length` in the source may briefly exceed queued plus in-flight tasks.
- The goroutine and 5-second ticker that drive the sweep (pkg/cache/cache.go:18-19): the sweep is the explicit `Sweep(now)` method.
- TtlCache.Cache.Sweep: judges every entry at the single instant `now`, whereas the source reads the clock afresh for each entry it visits, so entries visited later in one pass are judged at slightly later instants.
- Worker.BackgroundWorker.Enqueue: requires room in the queue; in the source a full channel blocks the caller until the worker takes a task.
- Worker.BackgroundWorker.RunUntilIdle: returns once the queue is empty, where the source's loop blocks waiting for the next task and never returns.
- Worker.BackgroundWorker.Shutdown: the 500 ms ticker and the context are replaced by the sequence of observed polls; a run of polls that neither sees zero nor a done context is reported as `Waiting`, since the source keeps waiting.
- Job execution: jobs fetch prices over HTTP and query SQL (internal/jobs/price.go); a job is a pure function from its context to its outcome, so side effects and cancellation inside jobs are not modelled.
- TtlCache.Cache.Get: says nothing of the value returned for an absent key, which the source returns as the Go zero value of the value type.
- TtlCache.Cache.Pop: likewise says nothing of the value returned for an absent key.
- Integer widths: instants, durations and the `int64` counter are unbounded integers; `time.Time.Add` overflow is not modelled.
- Logging calls, the worker ID and the logger are dropped; so is the embedded `context.Context` of the worker.
- `StatusRecorder.Flush` only delegates to the wrapped writer when it supports flushing; it changes no recorder state and is not modelled.
- The fan-out aggregation in internal/handlers/assethandler.go, the return calculations, SQL repositories, HTTP price fetchers, notification senders, configuration loading, routes, `cmd/main.go` wiring and the web front end are not part of this model.
