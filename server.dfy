/** The server tier of backend/server.js: the process-wide freshness cache,
    the retrying store fetch, the `/post` decision and the `/health` ping.
    The clock is a parameter (`now`), the store is a function from the attempt
    number to the outcome that attempt meets, and the connection pool is a counter of the
    connections checked out. */
module JokeServer {
  import opened Jokes

  /** How long a filled cache is served without asking the store: 5 minutes, in ms. */
  const CACHE_DURATION: nat := 5 * 60 * 1000

  /** The `retries` default of `fetchJokesFromDB`, which `/post` relies on. */
  const DEFAULT_RETRIES: nat := 3

  /** The module-level `jokesCache` record. */
  datatype JokesCache = JokesCache(data: seq<Joke>, lastUpdated: Option<nat>, isValid: bool)

  /** The cache as the process starts. */
  const EMPTY_CACHE: JokesCache := JokesCache([], None, false)

  /** `isCacheValid` at clock reading `now`. The source tests `lastUpdated` for
      truthiness, so a timestamp of 0 counts as missing. */
  predicate IsCacheValid(c: JokesCache, now: nat)
    ensures IsCacheValid(c, now) ==> c.isValid && c.lastUpdated.Some? && now < c.lastUpdated.value + CACHE_DURATION
    ensures !c.isValid ==> !IsCacheValid(c, now)
  {
    && c.isValid
    && c.lastUpdated.Some? && c.lastUpdated.value != 0
    && now - c.lastUpdated.value < CACHE_DURATION
  }

  /** The record `updateCache(data)` installs when the clock reads `now`. */
  function Refreshed(data: seq<Joke>, now: nat): (c: JokesCache)
    ensures c.data == data && CacheInvariant(c)
    ensures now != 0 ==> forall later: nat :: later - now < CACHE_DURATION ==> IsCacheValid(c, later)
  {
    JokesCache(data, Some(now), true)
  }

  /** What every cache the server can reach satisfies: the flag is set exactly
      when a timestamp is, and a cache that was never filled holds nothing. */
  predicate CacheInvariant(c: JokesCache)
  {
    && (c.isValid <==> c.lastUpdated.Some?)
    && (!c.isValid ==> c.data == [])
  }

  // ---------------------------------------------------------------------------
  // The store and the retrying fetch

  /** What the store does to one attempt: the pool refuses a connection, the
      query fails on an acquired connection, or the query returns rows. */
  datatype StoreOutcome = ConnErr | QueryErr | Ok(rows: seq<Joke>)

  /** The error a rejected fetch carries: that of its last attempt. */
  datatype StoreError = ConnectionError | QueryError

  datatype FetchResult = Resolved(rows: seq<Joke>) | Rejected(error: StoreError)

  /** How a fetch settles, and how many attempts it made. */
  datatype Fetch = Fetch(result: FetchResult, attempts: nat)

  /** The error a failed attempt reports. */
  function ErrorOf(o: StoreOutcome): StoreError
    requires !o.Ok?
  {
    if o.ConnErr? then ConnectionError else QueryError
  }

  /** `attemptFetch(retriesLeft)` as attempt number `attempt`: either failure
      retries with one retry fewer while any is left, otherwise the promise is
      rejected with that failure; rows resolve it. */
  function AttemptFetch(store: nat -> StoreOutcome, attempt: nat, retriesLeft: nat): (f: Fetch)
    ensures attempt < f.attempts <= attempt + retriesLeft + 1
    ensures forall j :: attempt <= j < f.attempts - 1 ==> !store(j).Ok?
    ensures f.result.Resolved? ==> store(f.attempts - 1) == Ok(f.result.rows)
    decreases retriesLeft
  {
    match store(attempt)
    case Ok(rows) => Fetch(Resolved(rows), attempt + 1)
    case ConnErr =>
      if retriesLeft > 0 then AttemptFetch(store, attempt + 1, retriesLeft - 1)
      else Fetch(Rejected(ConnectionError), attempt + 1)
    case QueryErr =>
      if retriesLeft > 0 then AttemptFetch(store, attempt + 1, retriesLeft - 1)
      else Fetch(Rejected(QueryError), attempt + 1)
  }

  /** `fetchJokesFromDB(retries)`: attempts are numbered from 0. */
  function FetchOutcome(store: nat -> StoreOutcome, retries: nat): (f: Fetch)
    ensures 0 < f.attempts <= retries + 1
    ensures f.result.Resolved? ==> store(f.attempts - 1) == Ok(f.result.rows)
  {
    AttemptFetch(store, 0, retries)
  }

  /** A store that fails every attempt from `attempt` on is given exactly
      `retriesLeft + 1` attempts, and the rejection is the last attempt's error. */
  lemma {:induction false} FailingAttemptsReject(store: nat -> StoreOutcome, attempt: nat, retriesLeft: nat)
    requires forall k :: attempt <= k <= attempt + retriesLeft ==> !store(k).Ok?
    ensures AttemptFetch(store, attempt, retriesLeft)
         == Fetch(Rejected(ErrorOf(store(attempt + retriesLeft))), attempt + retriesLeft + 1)
    decreases retriesLeft
  {
    if retriesLeft > 0 {
      FailingAttemptsReject(store, attempt + 1, retriesLeft - 1);
    }
  }

  /** Against a store that always fails, `fetchJokesFromDB(retries)` rejects
      after exactly `retries + 1` attempts (4 with the default). */
  lemma FailingStoreRejects(store: nat -> StoreOutcome, retries: nat)
    requires forall k: nat :: k <= retries ==> !store(k).Ok?
    ensures FetchOutcome(store, retries) == Fetch(Rejected(ErrorOf(store(retries))), retries + 1)
    ensures retries == DEFAULT_RETRIES ==> FetchOutcome(store, retries).attempts == 4
  {
    FailingAttemptsReject(store, 0, retries);
  }

  /** The first attempt whose query returns rows settles the fetch with those rows. */
  lemma {:induction false} FirstRowsResolve(store: nat -> StoreOutcome, attempt: nat, retriesLeft: nat, k: nat)
    requires attempt <= k <= attempt + retriesLeft
    requires forall j :: attempt <= j < k ==> !store(j).Ok?
    requires store(k).Ok?
    ensures AttemptFetch(store, attempt, retriesLeft) == Fetch(Resolved(store(k).rows), k + 1)
    decreases retriesLeft
  {
    if attempt < k {
      FirstRowsResolve(store, attempt + 1, retriesLeft - 1, k);
    }
  }

  /** A store that fails the first `k <= retries` attempts and then returns
      rows makes `fetchJokesFromDB(retries)` resolve with those rows after
      `k + 1` attempts. */
  lemma StoreRecoveringInTimeResolves(store: nat -> StoreOutcome, retries: nat, k: nat)
    requires k <= retries
    requires forall j: nat :: j < k ==> !store(j).Ok?
    requires store(k).Ok?
    ensures FetchOutcome(store, retries) == Fetch(Resolved(store(k).rows), k + 1)
  {
    FirstRowsResolve(store, 0, retries, k);
  }

  /** A fetch from attempt `attempt` on is rejected only when every attempt it
      was allowed failed, so it resolves exactly when one of them returns rows. */
  lemma {:induction false} RejectedOnlyIfAllFail(store: nat -> StoreOutcome, attempt: nat, retriesLeft: nat)
    ensures AttemptFetch(store, attempt, retriesLeft).result.Resolved?
        <==> exists k :: attempt <= k <= attempt + retriesLeft && store(k).Ok?
    decreases retriesLeft
  {
    if !store(attempt).Ok? && retriesLeft > 0 {
      RejectedOnlyIfAllFail(store, attempt + 1, retriesLeft - 1);
    }
  }

  // ---------------------------------------------------------------------------
  // The /post decision

  /** The answer of `GET /post`: 200 with rows, or 503. */
  datatype PostResponse = Served(jokes: seq<Joke>) | ServiceUnavailable

  /** The `/post` handler on cache `c`: the response and the cache afterwards.
      `now` is the clock when the request arrives, `fetchedAt` when the fetch
      settles, and `fetched` how the fetch settles if one is made. */
  function Post(c: JokesCache, now: nat, fetchedAt: nat, fetched: FetchResult): (r: (PostResponse, JokesCache))
    ensures r.1 == c || (fetched.Resolved? && r.1 == Refreshed(fetched.rows, fetchedAt))
    ensures r.0.Served? ==> r.0.jokes == r.1.data
    ensures r.0 == ServiceUnavailable ==> c.data == [] && r.1 == c
  {
    if IsCacheValid(c, now) then (Served(c.data), c)
    else match fetched
      case Resolved(rows) => (Served(rows), Refreshed(rows, fetchedAt))
      case Rejected(_) => (if |c.data| > 0 then Served(c.data) else ServiceUnavailable, c)
  }

  /** After `updateCache(d)` at time `t`, the cache holds exactly `d` and is
      valid at every `now` with `now - t` under the duration, and at no other. */
  lemma RefreshedCacheIsValid(d: seq<Joke>, t: nat, now: nat)
    requires t != 0
    ensures Refreshed(d, t).data == d
    ensures IsCacheValid(Refreshed(d, t), now) <==> now - t < CACHE_DURATION
    ensures CacheInvariant(Refreshed(d, t))
  {
  }

  /** The initial cache is never valid, and satisfies the invariant. */
  lemma EmptyCacheIsInvalid(now: nat)
    ensures !IsCacheValid(EMPTY_CACHE, now)
    ensures CacheInvariant(EMPTY_CACHE)
  {
  }

  /** Expiry is not eviction: an expired cache keeps its data, and a failed
      fetch then serves that data rather than 503. */
  lemma ExpiredCacheStillServesOnFailure(c: JokesCache, now: nat, fetchedAt: nat, e: StoreError)
    requires c.lastUpdated.Some? && now - c.lastUpdated.value >= CACHE_DURATION
    requires |c.data| > 0
    ensures !IsCacheValid(c, now)
    ensures Post(c, now, fetchedAt, Rejected(e)) == (Served(c.data), c)
  {
  }

  /** A cache hit serves the cached data and leaves the cache alone, whatever
      the store would have done. */
  lemma PostHitServesCache(c: JokesCache, now: nat, fetchedAt: nat, fetched: FetchResult)
    requires IsCacheValid(c, now)
    ensures Post(c, now, fetchedAt, fetched) == (Served(c.data), c)
  {
  }

  /** On a miss, a fetch that resolves with `rows` replaces the cache with
      exactly those rows (even none) and serves them. */
  lemma PostMissServesFetchedRows(c: JokesCache, now: nat, fetchedAt: nat, rows: seq<Joke>)
    requires !IsCacheValid(c, now)
    ensures Post(c, now, fetchedAt, Resolved(rows)).0 == Served(rows)
    ensures Post(c, now, fetchedAt, Resolved(rows)).1 == Refreshed(rows, fetchedAt)
  {
  }

  /** On a miss, a rejected fetch leaves the cache unchanged and answers 200
      with the old data when there is any, 503 otherwise. */
  lemma PostMissFailureFallsBack(c: JokesCache, now: nat, fetchedAt: nat, e: StoreError)
    requires !IsCacheValid(c, now)
    ensures Post(c, now, fetchedAt, Rejected(e)).1 == c
    ensures Post(c, now, fetchedAt, Rejected(e)).0 == ServiceUnavailable <==> c.data == []
    ensures Post(c, now, fetchedAt, Rejected(e)).0.Served? ==> Post(c, now, fetchedAt, Rejected(e)).0.jokes == c.data
  {
  }

  /** A second request within the duration of a refreshing one is a hit: it
      serves the same rows and does not depend on the store. */
  lemma SecondRequestIsHit(c: JokesCache, now: nat, fetchedAt: nat, rows: seq<Joke>,
                           later: nat, laterFetchedAt: nat, laterFetch: FetchResult)
    requires !IsCacheValid(c, now)
    requires fetchedAt != 0 && later - fetchedAt < CACHE_DURATION
    ensures var c' := Post(c, now, fetchedAt, Resolved(rows)).1;
            Post(c', later, laterFetchedAt, laterFetch) == (Served(rows), c')
  {
  }

  // ---------------------------------------------------------------------------
  // A run of requests

  /** One `/post` request: its arrival time, the time its fetch would settle,
      and what the store does to each attempt. */
  datatype Request = Request(now: nat, fetchedAt: nat, store: nat -> StoreOutcome)

  /** The cache after serving `r`. */
  function CacheAfter(c: JokesCache, r: Request): JokesCache
  {
    Post(c, r.now, r.fetchedAt, FetchOutcome(r.store, DEFAULT_RETRIES).result).1
  }

  /** The cache after serving `reqs` one after another. */
  function Serve(c: JokesCache, reqs: seq<Request>): JokesCache
    decreases |reqs|
  {
    if |reqs| == 0 then c else Serve(CacheAfter(c, reqs[0]), reqs[1..])
  }

  /** No request ever clears `isValid` once it is set. */
  lemma {:induction false} ServeNeverClearsFlag(c: JokesCache, reqs: seq<Request>)
    requires c.isValid
    ensures Serve(c, reqs).isValid
    decreases |reqs|
  {
    if |reqs| > 0 {
      ServeNeverClearsFlag(CacheAfter(c, reqs[0]), reqs[1..]);
    }
  }

  /** Every cache reachable from one satisfying the invariant satisfies it. */
  lemma {:induction false} ServePreservesInvariant(c: JokesCache, reqs: seq<Request>)
    requires CacheInvariant(c)
    ensures CacheInvariant(Serve(c, reqs))
    decreases |reqs|
  {
    if |reqs| > 0 {
      ServePreservesInvariant(CacheAfter(c, reqs[0]), reqs[1..]);
    }
  }

  /** The cache is replaced wholesale, never merged: after any run its data is
      the starting data or exactly the rows of one fetch of the run. */
  lemma {:induction false} ServedDataIsOneFetch(c: JokesCache, reqs: seq<Request>)
    ensures Serve(c, reqs).data == c.data
         || exists i :: 0 <= i < |reqs| && FetchOutcome(reqs[i].store, DEFAULT_RETRIES).result == Resolved(Serve(c, reqs).data)
    decreases |reqs|
  {
    if |reqs| > 0 {
      var c1 := CacheAfter(c, reqs[0]);
      var d := Serve(c, reqs).data;
      assert Serve(c, reqs) == Serve(c1, reqs[1..]);
      ServedDataIsOneFetch(c1, reqs[1..]);
      if d != c1.data {
        var i :| 0 <= i < |reqs[1..]| && FetchOutcome(reqs[1..][i].store, DEFAULT_RETRIES).result == Resolved(d);
        assert reqs[1..][i] == reqs[i + 1];
      } else if c1.data != c.data {
        assert FetchOutcome(reqs[0].store, DEFAULT_RETRIES).result == Resolved(d);
      }
    }
  }

  // ---------------------------------------------------------------------------
  // The server process

  /** What a health ping meets: the pool refuses a connection, the ping fails
      on an acquired connection, or it succeeds. */
  datatype PingOutcome = PoolRefused | PingFailed | Pong

  /** The answer of `GET /health`: 200 healthy, or 503 with whether the cache flag is set. */
  datatype HealthResponse = Healthy | Unhealthy(cacheAvailable: bool)

  class Server {
    var jokesCache: JokesCache
    /** Pool connections currently checked out. */
    var held: nat
    /** Calls made to `pool.getConnection`: every access to the store makes one. */
    var connectionRequests: nat

    ghost predicate Valid()
      reads this
    {
      CacheInvariant(jokesCache)
    }

    constructor ()
      ensures Valid()
      ensures jokesCache == EMPTY_CACHE && held == 0 && connectionRequests == 0
    {
      jokesCache := EMPTY_CACHE;
      held := 0;
      connectionRequests := 0;
    }

    /** `updateCache`: installs a new record, all three fields at once. */
    method UpdateCache(data: seq<Joke>, now: nat)
      modifies this`jokesCache
      ensures jokesCache == Refreshed(data, now)
    {
      jokesCache := Refreshed(data, now);
    }

    /** `pool.getConnection`: a refused request holds nothing. */
    method GetConnection(refused: bool) returns (acquired: bool)
      modifies this`held, this`connectionRequests
      ensures acquired == !refused
      ensures held == old(held) + (if acquired then 1 else 0)
      ensures connectionRequests == old(connectionRequests) + 1
    {
      connectionRequests := connectionRequests + 1;
      acquired := !refused;
      if acquired {
        held := held + 1;
      }
    }

    /** `connection.release()` of a connection this code holds. */
    method Release()
      requires held > 0
      modifies this`held
      ensures held == old(held) - 1
    {
      held := held - 1;
    }

    /** `fetchJokesFromDB(retries)`: one attempt per iteration, each taking a
      fresh connection and releasing it before looking at the query's result. */
    method FetchJokesFromDB(retries: nat, store: nat -> StoreOutcome) returns (f: Fetch)
      modifies this`held, this`connectionRequests
      ensures f == FetchOutcome(store, retries)
      ensures held == old(held)
      ensures connectionRequests == old(connectionRequests) + f.attempts
    {
      var attempt, retriesLeft := 0, retries;
      while true
        invariant attempt + retriesLeft == retries
        invariant AttemptFetch(store, attempt, retriesLeft) == FetchOutcome(store, retries)
        invariant held == old(held)
        invariant connectionRequests == old(connectionRequests) + attempt
        decreases retriesLeft
      {
        var outcome := store(attempt);
        var acquired := GetConnection(outcome.ConnErr?);
        if !acquired {
          if retriesLeft == 0 {
            return Fetch(Rejected(ConnectionError), attempt + 1);
          }
        } else {
          Release();
          if outcome.Ok? {
            return Fetch(Resolved(outcome.rows), attempt + 1);
          }
          if retriesLeft == 0 {
            return Fetch(Rejected(QueryError), attempt + 1);
          }
        }
        attempt, retriesLeft := attempt + 1, retriesLeft - 1;
      }
    }

    /** `GET /post`. A hit makes no store access; every connection taken is
      given back. */
    method HandlePost(now: nat, fetchedAt: nat, store: nat -> StoreOutcome) returns (response: PostResponse)
      requires Valid()
      modifies this
      ensures Valid()
      ensures (response, jokesCache)
           == Post(old(jokesCache), now, fetchedAt, FetchOutcome(store, DEFAULT_RETRIES).result)
      ensures held == old(held)
      ensures connectionRequests == old(connectionRequests)
              + (if IsCacheValid(old(jokesCache), now) then 0 else FetchOutcome(store, DEFAULT_RETRIES).attempts)
      ensures !old(jokesCache).isValid && FetchOutcome(store, DEFAULT_RETRIES).result.Rejected?
              ==> response == ServiceUnavailable
    {
      if IsCacheValid(jokesCache, now) {
        return Served(jokesCache.data);
      }
      var f := FetchJokesFromDB(DEFAULT_RETRIES, store);
      if f.result.Resolved? {
        UpdateCache(f.result.rows, fetchedAt);
        return Served(f.result.rows);
      }
      if |jokesCache.data| > 0 {
        return Served(jokesCache.data);
      }
      return ServiceUnavailable;
    }

    /** `checkDatabaseConnection`: a connection that was obtained is released
      whether the ping succeeds or not. */
    method CheckDatabaseConnection(ping: PingOutcome) returns (healthy: bool)
      modifies this`held, this`connectionRequests
      ensures healthy <==> ping == Pong
      ensures held == old(held)
      ensures connectionRequests == old(connectionRequests) + 1
    {
      var acquired := GetConnection(ping == PoolRefused);
      if !acquired {
        return false;
      }
      Release();
      healthy := ping == Pong;
    }

    /** `GET /health`: the 503 body reports the `isValid` flag, not freshness. */
    method Health(ping: PingOutcome) returns (response: HealthResponse)
      modifies this`held, this`connectionRequests
      ensures response == if ping == Pong then Healthy else Unhealthy(jokesCache.isValid)
      ensures held == old(held)
      ensures connectionRequests == old(connectionRequests) + 1
    {
      var healthy := CheckDatabaseConnection(ping);
      response := if healthy then Healthy else Unhealthy(jokesCache.isValid);
    }
  }
}
