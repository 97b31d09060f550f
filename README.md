# Sample-points app core, modelled in Dafny

This project models four pieces of a small web application that stores
labelled data points:

- a fixed-window **rate limiter** (`RateLimiter`), which admits up to `limit`
  calls per key within a window of `windowMs` milliseconds;
- the **retrying request client** (`Fetcher`), which makes up to `attempts`
  calls. It decodes each body, turns failures into errors and waits
  `min(baseDelayMs * 2^i, maxDelayMs)` after failed attempt `i`;
- the client's mutable **configuration** (`FetchConfig`) and its partial-merge update;
- the **data-access layer** (`Db`): pagination clamping, the in-memory store,
  the mapping of a refused database connection to a fixed error, and the
  lazily created connection pool.

Support modules: `Wrappers` (Option and Result) and `Arith` (`Min`).

Inputs stand in for everything outside these pieces:

- The clock is the `now` parameter of `CheckLimit`.
- The transport is a function `transport: nat -> Attempt`; `transport(i)` is
  what its `i`-th call produced: a network error, an abort, or a response
  with its ok flag, status and body text.
- `JSON.parse` is the oracle `parse: string -> Option<J>`. `None` means the
  parser threw.
- The `error` member of a parsed value is the oracle `errorOf`. It answers
  only when that member is truthy.
- Waits are not slept. `Fetch` returns the list of wait durations.
- The connection pool is an opaque token. The pool that `new Pool()` would
  create is the `created` parameter.
- Postgres queries are inputs. `query(limit, offset)` is what the paginated
  SELECT returns or throws for those parameters.
- The memory/Postgres switch is the constructor argument `useInMemoryStore`.

State that the source keeps in module variables is a class here:

- `RateLimiter.Limiter`: the key table, as a `map<string, Entry>`.
- `FetchConfig.Config`: the four configuration fields.
- `Db.Database`: `memStore`, `nextId` and `pool`.

Each method that changes state is tied to a pure specification function of
the old state (`Check`, `Merge`, `MemoryPage`, `PoolAfter`). The lemmas
prove what the source promises about those functions. Three client methods
in `Fetcher` (`ServerErrorThenSuccess`, `NetworkAlwaysFails`,
`AbortSurfacesAsTimeout`) replay concrete scenarios through `Fetch` and
assert the calls, waits and result that its contract implies.

Two behaviours of the retry loop are stated as the code has them:

- The attempt count is used as given, with no lower bound: with 0 or fewer
  attempts the loop never runs, no call is made, and the client resolves
  with `undefined` (`Outcome.Undefined`).
- Every failure is retried while attempts remain, 4xx included. The comment
  at lib/fetcher.ts:28 marks the branch for a 5xx with attempts left, inside
  the `try` block; the `catch` block at lib/fetcher.ts:38-50 retries every
  other failure the same way. Both record the error, wait once and continue.
  `Fetch` keeps both branches.

## Model

| member | source | states |
|---|---|---|
| `RateLimiter.CeilSeconds` | server/rateLimiter.ts:11 | the result is the least whole number of seconds covering the milliseconds, as `Math.ceil(ms / 1000)` is |
| `RateLimiter.Expired` | server/rateLimiter.ts:6 | a window counts as elapsed once `now` reaches its end instant `resetAt`, the boundary included |
| `RateLimiter.Check` | server/rateLimiter.ts:3-16 | only `key` may gain or change an entry and every other key's entry is untouched; a call is admitted exactly when the key is new, its window has elapsed (`resetAt <= now`), or its count is below the limit; an admitted call reports `limit - count` after counting; a denial leaves the table unchanged and asks for `retryAfter >= 1` |
| `RateLimiter.Calls` | server/rateLimiter.ts:3-16 | a run of calls yields one decision per call |
| `RateLimiter.CheckKeepsBounded` | server/rateLimiter.ts:6-15 | with `limit >= 1`, a table whose counts lie in `[1, limit]` keeps them there after any call, and an admitted call's `remaining` lies in `[0, limit)` |
| `RateLimiter.CallsInOpenWindow` | server/rateLimiter.ts:10-15 | inside an open window that has counted `c` calls, call `i` of a run is admitted with `limit - (c + i + 1)` left while `c + i < limit`, after that it is denied with `ceil((resetAt - t) / 1000)`; the table ends with only this key's count changed, capped at the limit |
| `RateLimiter.FirstWindow` | server/rateLimiter.ts:6-16 | in a run that opens a window and stays inside it, the first `limit` calls are admitted with `limit-1, ..., 0` remaining (the very first always is), every later call is denied with `retryAfter >= 1`, and for `limit >= 1` the count ends at `min(calls, limit)` |
| `RateLimiter.ExpiredWindowRestarts` | server/rateLimiter.ts:6-8 | for a new key, or once a key's window has elapsed, and for any limit, the next call is admitted with `limit - 1` left and opens the window `(1, now + windowMs)` |
| `RateLimiter.DefaultFirstCall` | server/rateLimiter.ts:3-8 | with the defaults 10 and 60000, a new key's first call is admitted with 9 left and stores `(1, now + 60000)` |
| `RateLimiter.Limiter.constructor` | server/rateLimiter.ts:1 | the table starts empty |
| `RateLimiter.Limiter.CheckLimit` | server/rateLimiter.ts:3-16 | the decision and the new table are those of `Check` on the old table |
| `RateLimiter.Limiter.CheckLimitDefault` | server/rateLimiter.ts:3 | `checkLimit(key)` behaves as `Check` with limit 10 and window 60000 |
| `RateLimiter.Limiter.ResetAll` | server/rateLimiter.ts:18-20 | the table is empty afterwards, so any key's next call is admitted with `limit - 1` left |
| `FetchConfig.Merge` | lib/fetchConfig.ts:20-22 | every field the partial gives takes the partial's value, and every field it omits keeps its previous value |
| `FetchConfig.MergeIdempotent` | lib/fetchConfig.ts:21 | merging the same partial twice gives the same configuration as merging it once |
| `FetchConfig.MergeFullRestores` | lib/fetchConfig.ts:21 | merging a full snapshot gives exactly that snapshot, whatever the configuration was before |
| `FetchConfig.MergeEmpty` | lib/fetchConfig.ts:21 | the empty partial changes nothing |
| `FetchConfig.MergeTwice` | lib/fetchConfig.ts:21 | two merges in a row equal one merge where the later partial wins on every field it gives |
| `FetchConfig.Config.constructor` | lib/fetchConfig.ts:13-18 | the configuration starts at 3 attempts, 100 ms base delay, 2000 ms cap, 5000 ms timeout |
| `FetchConfig.Config.SetFetchConfig` | lib/fetchConfig.ts:20-22 | the new configuration is `Merge` of the old one with the partial, updated in place |
| `Fetcher.Planned` | lib/fetcher.ts:8 | the attempt count is the caller's count when one is given (even 0 or less), else the configured one |
| `Fetcher.Backoff` | lib/fetcher.ts:45-48 | the wait is at most the cap and at most `base * 2^i`, and equals one of them |
| `Fetcher.BackoffNondecreasing` | lib/fetcher.ts:31 | with a non-negative base, a later attempt never waits less than an earlier one |
| `Fetcher.BackoffDoubles` | lib/fetcher.ts:46 | with a non-negative base and cap, each wait is twice the previous one, capped at `maxDelayMs` |
| `Fetcher.Message` | lib/fetcher.ts:22-42 | the caller sees "Request timed out" for a timeout, "Invalid JSON from server" for a body that is not JSON, and the carried message for a failed status or a transport error |
| `Fetcher.Decode` | lib/fetcher.ts:19-23 | decoding fails exactly when a non-empty body does not parse; the result is null exactly for the empty body; any other result is the parser's value |
| `Fetcher.ErrorMessage` | lib/fetcher.ts:25 | the message is the body's `error` member whenever it has one, and otherwise "Request failed" (always so for a null body) |
| `Fetcher.Classify` | lib/fetcher.ts:15-43 | one attempt succeeds exactly when an ok response's body is empty or parses; the empty body is null; a non-empty body that does not parse gives the invalid-JSON error whatever the status; a non-ok response gives an error with its status and the body's `error` message or "Request failed"; an abort, and only an abort, gives the timeout error; a network error keeps its message |
| `Fetcher.Fetch` | lib/fetcher.ts:7-53 | with a count of 0 or less there are no calls, no waits, and the result is undefined; otherwise there are between 1 and that many calls, and every attempt before the last failed; a result is the decoded body of the first success; an error is raised only after every attempt is used, and it is the last attempt's error; if every attempt fails, there are exactly that many calls; one wait of `min(base * 2^j, max)` follows each failed attempt `j` except the last |
| `Db.SafeLimit` | server/db.ts:92 | the page size lies in [1, 100]: the requested size when in range, else the nearest bound |
| `Db.SafePage` | server/db.ts:93 | the page is at least 1: the requested page when positive, else 1 |
| `Db.Offset` | server/db.ts:94 | the offset is a whole number of page sizes, as many as there are pages before the requested one |
| `Db.Slice` | server/db.ts:97 | `slice(from, to)` has the clamped length, and its elements are those of the store from `from` on |
| `Db.MemoryPage` | server/db.ts:92-99 | the in-memory page holds at most a page size of points; its length is what remains after the offset, up to the page size; it lists the store's points from the offset on, in order |
| `Db.PaginationDefaults` | server/db.ts:90-94 | the defaults (page 1, size 10) read ten rows from offset 0 |
| `Db.PaginationClamps` | server/db.ts:92-94 | page -1 of size 200 reads 100 rows from offset 0; page 2 of size 10 reads from offset 10 |
| `Db.PagesStartApart` | server/db.ts:96-99 | in a store whose ids increase, two non-empty pages at different offsets start with different ids, the later offset with the larger id |
| `Db.DenseIdsIncrease` | server/db.ts:4-12 | a store with ids `1..n` and next id `n + 1` has strictly increasing ids, all below the next id |
| `Db.AppendKeepsDense` | server/db.ts:71-72 | appending the point with the next id and advancing the id keeps the ids `1..n` dense |
| `Db.Contains` | server/db.ts:58 | a match needs room for the pattern, and a pattern at the start of the message is found |
| `Db.ContainsIff` | server/db.ts:58 | the substring test succeeds exactly when the pattern occurs at some position of the message |
| `Db.IsConnectionRefused` | server/db.ts:58 | only a thrown error, never a falsy value, counts as refused; the code ECONNREFUSED alone is enough; the fixed error itself counts |
| `Db.MapError` | server/db.ts:58-64 | an error is turned into the fixed connection-refused error exactly when it is a connection refused by code or by message; any other error, a falsy one included, is rethrown unchanged; falsy stays falsy |
| `Db.MapErrorIdempotent` | server/db.ts:58-62 | the fixed error is itself classified as refused, so mapping twice changes nothing more |
| `Db.ConnectionRefusedExamples` | server/db.ts:58-64 | the code `ECONNREFUSED` alone, or the word in the message alone, maps to the fixed error; a falsy error stays falsy |
| `Db.OtherErrorsUnchanged` | server/db.ts:58-64 | an error whose code is not `ECONNREFUSED` and whose message never contains it is rethrown as it is |
| `Db.Settle` | server/db.ts:54-65 | an operation on the Postgres path fails exactly when its query threw; it gives the shaped rows on success; its error is the fixed connection-refused one exactly for a refused connection, and the query's own error otherwise |
| `Db.FirstRow` | server/db.ts:78 | there is no row exactly when the query returned none; otherwise it is the first row |
| `Db.PoolAfter` | server/db.ts:17-28 | in memory mode, or when a pool exists, the pool is kept; in Postgres mode there is always a pool afterwards |
| `Db.Database.constructor` | server/db.ts:4-15 | the store starts as the six sample points with ids 1 to 6, the next id is 7, and there is no pool |
| `Db.Database.GetPool` | server/db.ts:17-28 | memory mode gives no pool and creates none; otherwise the existing pool is returned, or one is created on the first call and returned on every later one |
| `Db.Database.SetPoolForTests` | server/db.ts:31-33 | the pool is replaced by the given one (none included) |
| `Db.Database.GetAllSamplePoints` | server/db.ts:48-66 | memory mode gives the whole store and changes neither the store nor the pool; Postgres mode gives the query's rows or the mapped error |
| `Db.Database.InsertSamplePoint` | server/db.ts:68-88 | memory mode returns `{nextId, label, value}`, appends it after the unchanged earlier points, advances the next id by one, and keeps the ids dense; Postgres mode returns the first returned row (none for no rows) or the mapped error and leaves the store alone |
| `Db.Database.GetSamplePointsPaginated` | server/db.ts:90-116 | memory mode gives `MemoryPage` of the store; Postgres mode issues the query with the clamped page size and the offset and gives its rows or the mapped error |

## Left out

- Timers: `setTimeout`/`clearTimeout`, the `AbortController` wiring and `timeoutMs` are stored but never drive anything. A timeout is the `Aborted` outcome of an attempt.
- `wait`: the waits are recorded as durations, so elapsed wall-clock time is not modelled.
- The transport and the body: `fetch`, the request target, the `RequestInit` merge and the reading of the body are replaced by the `transport` input. A failure while reading the body counts as a `NetworkError`.
- JSON: parsing and the truthiness of a parsed value's `error` member are the oracles `parse` and `errorOf`.
- Fetch: reads the configuration from `cfg`, and nothing changes `cfg` during one call. A configuration change made by other code during an awaited wait is not modelled, because the model has no interleaving.
- Fetch: a transport that rejects with a falsy value (`throw null`) is not modelled. Every transport error carries a message.
- Merge: `Object.assign` would also copy a field set explicitly to `undefined`. A `Partial` here can only give a value or leave the field out.
- CeilSeconds: uses exact integer ceiling division. JavaScript divides in floating point before `Math.ceil`; the two differ only for differences beyond 2^53 ms.
- Floating point: point values, pages and limits are integers. `NaN`, fractional pages and fractional limits are not modelled.
- Entries: the limiter's entry object is mutated in place (`entry.count += 1`). The model stores a new `Entry` value under the key instead. Nothing outside the limiter holds a reference to an entry, so this is equivalent.
- GetAllSamplePoints, InsertSamplePoint, GetSamplePointsPaginated: points are values here. In the source, the array copy of `getAllSamplePoints`, the slice of `getSamplePointsPaginated` and the object `insertSamplePoint` returns share their point objects with the in-memory store, so a caller that assigned to a returned point's `id` would change the store and could break the dense ids `Database.Valid` and `DenseIdsIncrease` describe. The model assumes no caller mutates a returned point.
- Errors: "rethrown unchanged" is value equality of `DbError`, not object identity. A non-string `message` converted by `String(...)` is not modelled.
- Contains: models only the regular-expression test with the literal pattern `ECONNREFUSED`.
- Postgres and configuration: query execution, `require('pg')`, the `console.log` logging and the environment read of `lib/config.ts` are external I/O. The memory/Postgres choice is a constructor parameter.
- lib/data.ts, app/api/sample/route.ts, the React components and pages, and the tests are not part of this model.
