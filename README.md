# Jokes cache-and-retry policy, in Dafny

This project models the only decision logic of the jokes service: one cache-and-retry policy on each tier.

- **Server** (`backend/server.js`, module `JokeServer` in `server.dfy`).
  - A process-wide `jokesCache` record that is valid for 5 minutes.
  - `fetchJokesFromDB`, which makes one attempt and then up to `retries` more. Each attempt takes a pooled connection, runs one query and releases the connection.
  - The `GET /post` decision: a cache hit, a miss that refreshes the cache, or a failed fetch that serves stale data or answers 503.
  - The `/health` ping.
- **Client** (`frontend/src/App.jsx`, the live `App` component, module `JokeApp` in `app.dfy`).
  - Two localStorage keys that stay valid for 1 hour.
  - `loadFromCache` and `updateCache`.
  - `fetchData`: the offline short-circuit, success only on a non-empty body, error classification, a one-shot retry with linear delay, and the fallback to persisted jokes.
  - The mount effect and the `online`/`offline` handlers.
  - The wrap-around "next joke" control.

`jokes.dfy` (module `Jokes`) holds the row type and `Option`.

How the world outside the code is modelled:
- The clock is a plain `now` parameter.
- The store is `nat -> StoreOutcome`: what attempt number k meets (`ConnErr`, `QueryErr` or `Ok(rows)`).
- The connection pool is two counters on the `Server` object:
  - `held`: the connections currently out;
  - `connectionRequests`: the calls to `getConnection`.
- The network is a scripted `NetworkOutcome`: a 200 body, or a thrown error with its `code`, `response` status and `request` flag.
- localStorage is a record of its two keys. A stored value reads back either as what was written or as `Unparsable`.
- A full storage quota is a `WriteFault` parameter.

Each tier has the same two layers:
- Pure functions state what each operation does: `AttemptFetch`, `Post` and `Serve` on the server; `LoadStep`, `PersistStep`, `FetchStep`, `MountStep`, `OnlineStep`, `OfflineStep` and `NextStep` on the client. Lemmas state the properties of those functions.
- A class (`Server`, `App`) holds the state the source mutates in place. Its methods update it step by step, and each method's `ensures` ties the new state to the pure function of the old state.

Behaviours of the code worth knowing (the model keeps each as written):
- **Attempts.** `fetchJokesFromDB(3)` makes one attempt and then up to 3 more, so a store that keeps failing is tried `retries + 1` = 4 times (`FailingStoreRejects`).
- **Stale responses.** When the store fails and the cache still holds jokes, `/post` answers an ordinary 200 with the cached array. Nothing in the response marks it as stale (`ExpiredCacheStillServesOnFailure`).
- **Retry budget.** On the client, only a call that is not itself a retry can schedule a retry, so each failed fetch schedules at most one. At most 3 retries are scheduled between two successes, with delays of 2000, 4000 and 6000 ms (`RetriesAreBoundedAndLinear`).
- **Mount re-runs.** The mount effect depends on `fetchData` (`frontend/src/App.jsx:276`), and `fetchData` is rebuilt whenever `retryCount` changes (`frontend/src/App.jsx:238`). So every failed fetch that schedules a retry also re-runs the effect, which fetches again while the cache is stale. With a stale cache and a server that keeps failing, the page sends 4 requests one after another, each as soon as the previous one fails: the first render's fetch and three re-runs. It also schedules retries of 2000, 4000 and 6000 ms, so a failing server sees 7 requests, not one request followed by 3 retries (`MountRerunsOnRetryCountChange`). How the retries interleave with the re-runs depends on how long each failure takes to come back.
- **Empty list.** The "next" control is rendered only when the list of jokes is non-empty (`frontend/src/App.jsx:317-326`), so `HandleNextJoke` requires a non-empty list.
- **Timestamp 0.** `isCacheValid` on the server tests `lastUpdated` for truthiness, so a timestamp of 0 counts as missing. `RefreshedCacheIsValid` assumes `t != 0`.
- **Health report.** The 503 body of `/health` reports the `isValid` flag. Nothing ever clears that flag (`ServeNeverClearsFlag`), so after the first successful fetch the body says the cache is available even once it has expired.
- **Offline mount.** When the page mounts offline, `handleOffline` does not clear `loading`, so the state keeps `loading == true` (`MountFetchesOnlyWhenStale`).
- **Index not reset.** Replacing `dt` (`frontend/src/App.jsx:171` and `:204`) does not reset `currentIndex`. When the new list is shorter, the index points past its end, and the next render reads `dt[currentIndex].title` (`frontend/src/App.jsx:319`) on `undefined`. That throws, and no error boundary catches it. The model keeps the out-of-range index in its state but does not model rendering. `NextStepCycles` covers only the index arithmetic of a press of "next" that could happen before such a render.

## Model

| member | source | states |
|---|---|---|
| `JokeServer.IsCacheValid` | backend/server.js:87-91 | a cache counts as valid only when its flag is set, it has a timestamp, and that timestamp is less than 5 minutes before `now`; an unset flag is never valid |
| `JokeServer.Refreshed` | backend/server.js:93-99 | the refreshed cache holds exactly the new data, satisfies the cache invariant, and when stamped at a non-zero time is valid for the next 5 minutes |
| `JokeServer.FetchOutcome` | backend/server.js:102-136 | `fetchJokesFromDB(retries)` makes between 1 and `retries + 1` attempts; a resolved fetch carries exactly the rows its last attempt returned |
| `JokeServer.Post` | backend/server.js:139-176 | the cache after `/post` is the old cache or the refresh with the fetched rows; a 200 answer is exactly the data the cache holds afterwards; a 503 comes only from an empty cache, which it leaves unchanged |
| `JokeServer.AttemptFetch` | backend/server.js:104-132 | a fetch makes between 1 and `retriesLeft + 1` attempts; every attempt before the last failed; a resolved fetch carries exactly the rows of its last attempt |
| `JokeServer.FailingAttemptsReject` | backend/server.js:104-132 | when every allowed attempt fails, the fetch is rejected after exactly `retriesLeft + 1` attempts, with the last attempt's error (connection or query) |
| `JokeServer.FailingStoreRejects` | backend/server.js:102-136 | against a store that always fails, `fetchJokesFromDB(r)` rejects after exactly `r + 1` attempts, which is 4 for the default `r = 3` |
| `JokeServer.FirstRowsResolve` | backend/server.js:104-131 | the first attempt within the budget whose query returns rows settles the fetch with those rows, after that many attempts |
| `JokeServer.StoreRecoveringInTimeResolves` | backend/server.js:102-136 | a store that fails the first `k <= r` attempts and then returns rows makes the fetch resolve with those rows after `k + 1` attempts |
| `JokeServer.RejectedOnlyIfAllFail` | backend/server.js:104-132 | a fetch resolves if and only if some attempt within its budget returns rows |
| `JokeServer.RefreshedCacheIsValid` | backend/server.js:87-99 | after `updateCache(d)` at time `t`, the cache holds exactly `d`; it is valid at `now` if and only if `now - t` is under 5 minutes; it satisfies the cache invariant |
| `JokeServer.EmptyCacheIsInvalid` | backend/server.js:16-20 | the initial cache (no data, no timestamp, flag unset) is never valid and satisfies the cache invariant |
| `JokeServer.ExpiredCacheStillServesOnFailure` | backend/server.js:161-168 | expiry is not eviction: an expired cache keeps its data, and a failed fetch then serves that data with 200 rather than 503 |
| `JokeServer.PostHitServesCache` | backend/server.js:150-154 | on a valid cache, `/post` answers with the cached data and leaves the cache unchanged, whatever the store would have done |
| `JokeServer.PostMissServesFetchedRows` | backend/server.js:156-159 | on a miss with a resolved fetch, `/post` answers with exactly the fetched rows, even none, and the cache becomes those rows stamped with the fetch time |
| `JokeServer.PostMissFailureFallsBack` | backend/server.js:161-175 | on a miss with a rejected fetch the cache is unchanged; the answer is 503 if and only if the cached data is empty, and otherwise the old cached data |
| `JokeServer.SecondRequestIsHit` | backend/server.js:150-159 | a request arriving within 5 minutes of a refresh is served the same rows, and the store's behaviour has no effect on it |
| `JokeServer.ServeNeverClearsFlag` | backend/server.js:93-99 | over any run of `/post` requests, no code path sets `isValid` back to false once it is set |
| `JokeServer.ServePreservesInvariant` | backend/server.js:93-99 | over any run of requests, the flag is set exactly when a timestamp is, and a cache that was never filled stays empty |
| `JokeServer.ServedDataIsOneFetch` | backend/server.js:93-99 | the cache is replaced wholesale, never merged: after any run its data is the starting data or exactly the rows of one fetch of the run |
| `JokeServer.Server.constructor` | backend/server.js:15-20 | the process starts with the empty cache, no connections held and no store access |
| `JokeServer.Server.UpdateCache` | backend/server.js:93-99 | data, timestamp and flag are replaced together by one new record |
| `JokeServer.Server.GetConnection` | backend/server.js:105-114 | every acquisition request is counted; only a granted one holds a connection |
| `JokeServer.Server.Release` | backend/server.js:117 | releasing gives back one held connection |
| `JokeServer.Server.FetchJokesFromDB` | backend/server.js:102-136 | the loop settles as `AttemptFetch` does; the held-connection count is back at its starting value on every path; the store is asked exactly once per attempt |
| `JokeServer.Server.HandlePost` | backend/server.js:139-176 | response and new cache are those of the `/post` decision; a hit makes no store access; a miss makes exactly the fetch's attempts; no connection stays held |
| `JokeServer.Server.CheckDatabaseConnection` | backend/server.js:56-74 | healthy if and only if the ping succeeds; a connection that was obtained is released whether the ping succeeds or fails |
| `JokeServer.Server.Health` | backend/server.js:179-190 | 200 when the ping succeeds, otherwise 503 reporting the cache flag; no connection stays held |
| `JokeApp.IsCacheValid` | frontend/src/App.jsx:148-152 | the persisted cache is valid only with a readable timestamp key less than one hour before `now` |
| `JokeApp.Persist` | frontend/src/App.jsx:155-163 | unless the payload write is refused, the payload reads back as the data; the timestamp key becomes `now` only when both writes go through, and otherwise keeps its old value; a refused payload write changes nothing |
| `JokeApp.PersistStep` | frontend/src/App.jsx:155-163 | `updateCache` changes only storage and `lastUpdated`; when both writes go through, `lastUpdated` becomes `now`, the data reads back and the persisted cache is valid at `now`; when a write is refused, `lastUpdated` keeps its old value |
| `JokeApp.Load` | frontend/src/App.jsx:166-178 | a read returns exactly the stored payload, and returns nothing if and only if the key is absent or does not parse |
| `JokeApp.LoadStep` | frontend/src/App.jsx:166-178 | `loadFromCache` returns true if and only if a payload reads back; it then shows exactly that payload and changes nothing else; otherwise the state is unchanged |
| `JokeApp.Classify` | frontend/src/App.jsx:215-223 | a thrown request error never yields the offline or no-cached-data notice; a server-error notice carries the response status; the timeout notice appears if and only if the code is `ECONNABORTED` |
| `JokeApp.Message` | frontend/src/App.jsx:183-233 | the server-error text is `Server error: ` followed by a string of decimal digits, with no leading zero, whose value is the response status; every other notice's text ends with a full stop, so the two kinds never coincide |
| `JokeApp.DecimalText` | frontend/src/App.jsx:218 | the text `${err.response.status}` writes for a status is a non-empty string of decimal digits whose value (`DigitsValue`) is that status, with no leading zero unless it is the single digit `0`, so the text is unique |
| `JokeApp.PlanRetry` | frontend/src/App.jsx:226-229 | a delay is scheduled only by a non-retry call, and it raises the count by one; the delay is 2000 ms times the new count; a count within 3 stays within 3 |
| `JokeApp.FetchStep` | frontend/src/App.jsx:181-238 | `fetchData` always ends with loading off; it sends a request exactly when online; it keeps the index and the online flag; it never takes the retry count past 3; a retry schedules nothing, and a scheduled retry raises the count by one |
| `JokeApp.OfflineStep` | frontend/src/App.jsx:247-251 | the `offline` event marks the app offline with the offline notice; it sends nothing and leaves `loading` and storage as they were |
| `JokeApp.OnlineStep` | frontend/src/App.jsx:242-245 | the `online` event marks the app online and sends exactly one request |
| `JokeApp.MountStep` | frontend/src/App.jsx:253-269 | the mount effect sends one request exactly when online with a stale cache; online with a fresh cache it only loads the persisted jokes and stops loading, and schedules nothing |
| `JokeApp.NextStep` | frontend/src/App.jsx:278-280 | a press of "next" changes only the index, and the new index is inside the list |
| `JokeApp.MissingTimestampIsInvalid` | frontend/src/App.jsx:148-152 | without the timestamp key the persisted cache is never valid |
| `JokeApp.PersistThenLoad` | frontend/src/App.jsx:155-178 | after a complete `updateCache(d)` at `t`, the payload reads back as `d`; the cache is valid at `now` if and only if `now - t` is under one hour |
| `JokeApp.PartialPersist` | frontend/src/App.jsx:155-163 | when the timestamp write is refused, the new payload sits under the old timestamp and validity is unchanged; when the payload write is refused, storage is unchanged |
| `JokeApp.ClassifyPriority` | frontend/src/App.jsx:215-223 | the timeout code wins over a response, and a response wins over a bare request; the generic message appears if and only if none of the three is present |
| `JokeApp.EmptyBodyIsGenericError` | frontend/src/App.jsx:203-210 | an empty 200 body is not a success, and it is reported with the generic load error |
| `JokeApp.RetryPlanBounds` | frontend/src/App.jsx:226-229 | a retry schedules nothing; a delay is scheduled if and only if the call is not a retry and the count is below 3; the count never passes 3; the delay is 2000 ms times the new count |
| `JokeApp.RetriesAreBoundedAndLinear` | frontend/src/App.jsx:226-229 | any run of failed fetches schedules at most `3 - retryCount` retries, with delays 2000, 4000, 6000 ms in order |
| `JokeApp.NextIndex` | frontend/src/App.jsx:278-280 | the next index is always inside the list: one step forward, wrapping from the last joke to the first |
| `JokeApp.AdvanceFullCycle` | frontend/src/App.jsx:278-280 | `n` presses of "next" over `n` jokes return to the joke shown |
| `JokeApp.UpdateThenLoadRoundTrip` | frontend/src/App.jsx:155-178 | `updateCache(d)` followed by `loadFromCache()` returns true, shows exactly `d` and records the update time |
| `JokeApp.LoadNeverThrows` | frontend/src/App.jsx:166-178 | `loadFromCache` returns false if and only if the key is absent or does not parse, and then changes nothing; otherwise it only replaces `dt` |
| `JokeApp.OfflineFetchSendsNothing` | frontend/src/App.jsx:182-187 | offline, `fetchData` sends no request, shows the offline notice, shows the persisted jokes if any, leaves storage and the retry count alone and schedules nothing |
| `JokeApp.FetchSucceedsOnlyOnData` | frontend/src/App.jsx:189-210 | online, a request is sent and the error is cleared if and only if the body is non-empty; on success the body is shown and persisted, and the count is reset with no retry |
| `JokeApp.FetchFailureFallsBack` | frontend/src/App.jsx:211-234 | on failure: the notice is the classified error, overwritten by "no cached data" when the fallback finds nothing; persisted jokes are shown; storage is untouched; the retry follows the retry decision |
| `JokeApp.FetchKeepsRetryBound` | frontend/src/App.jsx:181-238 | no call of `fetchData` takes the retry count past 3, and a retry never schedules another |
| `JokeApp.MountRerunsOnRetryCountChange` | frontend/src/App.jsx:226-276 | with a stale cache and a failing server, four runs of the mount effect from the first render send 4 requests and schedule retries of 2000, 4000 and 6000 ms and then none, leaving the retry count at 3 |
| `JokeApp.MountFetchesOnlyWhenStale` | frontend/src/App.jsx:253-269 | the mount effect sends a request if and only if the browser is online and the persisted cache is not valid; offline, it shows the offline notice and leaves `loading` as it was |
| `JokeApp.OnlineEventAlwaysFetches` | frontend/src/App.jsx:242-245 | the `online` event marks the app online and sends a request whatever the state of the cache |
| `JokeApp.NextStepCycles` | frontend/src/App.jsx:278-280 | "next" lands inside the list even when the index was out of range; from a shown joke, `|dt|` presses return to it |
| `JokeApp.App.constructor` | frontend/src/App.jsx:139-145 | the first render: no jokes, index 0, no error, loading, online as the browser reports, retry count 0, nothing persisted this session |
| `JokeApp.App.UpdateCache` | frontend/src/App.jsx:155-163 | writes the payload and then the timestamp; a refused write stops the rest and is swallowed; `lastUpdated` is set only when both writes went through |
| `JokeApp.App.LoadFromCache` | frontend/src/App.jsx:166-178 | reports whether persisted jokes were found and shows them; never fails |
| `JokeApp.App.FetchData` | frontend/src/App.jsx:181-238 | the new state and the scheduled retry are those of `FetchStep`, and the retry count stays at most 3 |
| `JokeApp.App.HandleOffline` | frontend/src/App.jsx:247-251 | marks the app offline, shows the offline notice and reloads the persisted jokes |
| `JokeApp.App.HandleOnline` | frontend/src/App.jsx:242-245 | marks the app online and runs a fresh, non-retry fetch |
| `JokeApp.App.Mount` | frontend/src/App.jsx:253-269 | loads the persisted jokes first; then fetches only when online with a stale cache, stops loading when online with a fresh cache, and goes offline otherwise |
| `JokeApp.App.HandleNextJoke` | frontend/src/App.jsx:278-280 | advances the index with wrap-around and keeps it inside the list |
| `JokeApp.App.HandleRefresh` | frontend/src/App.jsx:283-285 | a manual refresh is a fresh, non-retry fetch; the button offers it only when not loading and online |

## Left out

- Express wiring is not modelled. This covers CORS options, response headers (`Cache-Control`), static file serving, the catch-all route, the error middleware and `app.listen`. These are framework plumbing with no decisions.
- The MySQL pool configuration and the SQL text are not modelled. The store is an abstract source of one outcome per attempt.
- The 30-second health logger (`setInterval`) and the SIGTERM shutdown are not modelled. They are timers and process control that only log or exit.
- No timer is waited on.
  - The 1000 ms wait between server attempts shows up only as `fetchedAt`, the clock reading when the fetch settles, which `HandlePost` takes as a parameter.
  - The client's retry delay is returned to the caller. The retry itself is a later `FetchData` call with `isRetry` set.
- Concurrency is not modelled: overlapping `/post` requests racing on `updateCache`, stale client retries overwriting fresher state, and async interleaving. Each operation is one atomic step.
- React re-runs the mount effect whenever `fetchData` is rebuilt, that is whenever `retryCount` changes. The model exposes the effect's body as `Mount`, and the caller decides when it runs; `MountRerunsOnRetryCountChange` shows what those re-runs add up to. Listener registration and removal are not modelled.
- `fetchData` reads `retryCount` from the closure of the render that created it. The model reads the current value. When fetches do not overlap, the two differ only for a retry, and a retry ignores the count. Overlapping fetches can differ (see the concurrency line above): a non-retry fetch whose closure saw an older count can schedule a delay that the current count would not give.
- JSON serialisation is modelled as identity plus a possible parse failure. A 200 body that is not an array of jokes is not modelled. `toLocaleString` is not modelled: `lastUpdated` holds the clock reading.
- axios internals are not modelled, including the `retry`/`retryDelay` options, which have no effect. A non-200 status is a thrown error with a `response`.
- The `details` field of the 503 body, which depends on `NODE_ENV`, is not modelled, and neither is console logging.
- JSX rendering and styling (`frontend/src/App.jsx:287-360`) are not modelled. The spinner shown while `loading` with no jokes is only visible through the `loading` field. The render that throws when `currentIndex` is past the end of a shorter list is therefore not modelled either.
- The commented-out older component (`frontend/src/App.jsx:1-125`) is not modelled.
