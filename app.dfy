/** The client tier of frontend/src/App.jsx (the live `App` component): the
    persisted cache in localStorage, the fetch policy with its error notices
    and one-shot retry, the mount and online/offline handlers, and the
    wrap-around "next joke" control. The clock (`now`), the browser's
    connectivity (`online`), what the network answers and whether a storage
    write is refused are parameters. */
module JokeApp {
  import opened Jokes

  /** How long the persisted cache counts as fresh: 1 hour, in ms. */
  const CACHE_DURATION: nat := 1000 * 60 * 60

  /** Retries a run of failures may schedule before a success resets the count. */
  const MAX_RETRIES: nat := 3

  /** The n-th retry waits n times this many ms. */
  const RETRY_DELAY_STEP: nat := 2000

  // ---------------------------------------------------------------------------
  // localStorage

  /** A localStorage value as read back: what was written, or text that does
      not parse (`JSON.parse` throws, `parseInt` gives NaN, or it is empty). */
  datatype Stored<T> = Parsed(value: T) | Unparsable

  /** The two keys the component uses, `cachedJokes` and `jokeCacheTimestamp`. */
  datatype LocalStorage = LocalStorage(cachedJokes: Option<Stored<seq<Joke>>>, jokeCacheTimestamp: Option<Stored<int>>)

  /** `isCacheValid` at clock reading `now`. An unparsable timestamp compares
      as NaN, which is never below the duration. */
  predicate IsCacheValid(s: LocalStorage, now: nat)
    ensures IsCacheValid(s, now) ==> s.jokeCacheTimestamp.Some? && s.jokeCacheTimestamp.value.Parsed?
    ensures IsCacheValid(s, now) ==> now < s.jokeCacheTimestamp.value.value + CACHE_DURATION
  {
    match s.jokeCacheTimestamp
    case None => false
    case Some(Unparsable) => false
    case Some(Parsed(ts)) => now - ts < CACHE_DURATION
  }

  /** Which `setItem` of `updateCache`, if any, throws (a full quota); the
      exception is caught, so the writes before it stay and those after it
      do not happen. */
  datatype WriteFault = NoFault | PayloadRejected | TimestampRejected

  /** localStorage after `updateCache(data)` at clock reading `now`. */
  function Persist(s: LocalStorage, data: seq<Joke>, now: nat, fault: WriteFault): (r: LocalStorage)
    ensures fault != PayloadRejected ==> Load(r) == Some(data)
    ensures fault == NoFault ==> r.jokeCacheTimestamp == Some(Parsed(now as int))
    ensures fault != NoFault ==> r.jokeCacheTimestamp == s.jokeCacheTimestamp
    ensures fault == PayloadRejected ==> r == s
  {
    match fault
    case NoFault => LocalStorage(Some(Parsed(data)), Some(Parsed(now)))
    case PayloadRejected => s
    case TimestampRejected => s.(cachedJokes := Some(Parsed(data)))
  }

  /** What `loadFromCache` finds: the parsed payload, or nothing when the key
      is absent or does not parse. */
  function Load(s: LocalStorage): (r: Option<seq<Joke>>)
    ensures r.Some? ==> s.cachedJokes == Some(Parsed(r.value))
    ensures r.None? <==> s.cachedJokes == None || s.cachedJokes == Some(Unparsable)
  {
    match s.cachedJokes
    case Some(Parsed(jokes)) => Some(jokes)
    case _ => None
  }

  /** Without a timestamp key the persisted cache is never valid. */
  lemma MissingTimestampIsInvalid(s: LocalStorage, now: nat)
    requires s.jokeCacheTimestamp == None
    ensures !IsCacheValid(s, now)
  {
  }

  /** A complete `updateCache(data)` at time `t` is read back as `data`, and
      the cache is valid at `now` exactly when `now - t` is under an hour. */
  lemma PersistThenLoad(s: LocalStorage, data: seq<Joke>, t: nat, now: nat)
    ensures Load(Persist(s, data, t, NoFault)) == Some(data)
    ensures IsCacheValid(Persist(s, data, t, NoFault), now) <==> now - t < CACHE_DURATION
  {
  }

  /** A write refused at the timestamp leaves the new payload under the old
      timestamp; a write refused at the payload changes nothing. */
  lemma PartialPersist(s: LocalStorage, data: seq<Joke>, t: nat, now: nat)
    ensures Load(Persist(s, data, t, TimestampRejected)) == Some(data)
    ensures IsCacheValid(Persist(s, data, t, TimestampRejected), now) == IsCacheValid(s, now)
    ensures Persist(s, data, t, PayloadRejected) == s
  {
  }

  // ---------------------------------------------------------------------------
  // The network and the error notices

  /** The fields of a thrown error that the handler inspects: `code`, the
      status of `response` if there is one, and whether `request` is set. */
  datatype RequestError = RequestError(code: Option<string>, response: Option<nat>, request: bool)

  /** What `axios.get` does: resolves with a 200 body, or throws. */
  datatype NetworkOutcome = Response(data: seq<Joke>) | Failure(error: RequestError)

  /** The fetch succeeds only on a non-empty body. */
  predicate Succeeded(o: NetworkOutcome)
  {
    o.Response? && |o.data| > 0
  }

  /** The error the `catch` block receives. An empty body throws a plain
      `Error`, which has no code, response or request. */
  function Thrown(o: NetworkOutcome): RequestError
    requires !Succeeded(o)
  {
    match o
    case Response(_) => RequestError(None, None, false)
    case Failure(e) => e
  }

  /** The notices the component shows in `error`. */
  datatype Notice = Offline | ConnectionTimeout | ServerError(status: nat) | NoResponse | LoadFailed | NoCachedData

  /** The error chain of the `catch` block, checked in this order. */
  function Classify(e: RequestError): (n: Notice)
    ensures n != Offline && n != NoCachedData
    ensures n.ServerError? ==> e.response == Some(n.status)
    ensures n == ConnectionTimeout <==> e.code == Some("ECONNABORTED")
  {
    if e.code == Some("ECONNABORTED") then ConnectionTimeout
    else if e.response.Some? then ServerError(e.response.value)
    else if e.request then NoResponse
    else LoadFailed
  }

  /** The text the component shows for each notice. */
  function Message(n: Notice): (text: string)
    ensures n.ServerError? ==> |text| > 14 && text[..14] == "Server error: "
    ensures n.ServerError? ==> AllDigits(text[14..]) && DigitsValue(text[14..]) == n.status
    ensures n.ServerError? ==> |text| == 15 || text[14] != '0'
    ensures !n.ServerError? ==> |text| > 0 && text[|text| - 1] == '.'
  {
    match n
    case Offline => "You are offline. Showing cached data."
    case ConnectionTimeout => "Connection timeout. Please check your internet connection."
    case ServerError(status) => "Server error: " + DecimalText(status)
    case NoResponse => "No response from server. Please try again."
    case LoadFailed => "Error loading data. Please try again."
    case NoCachedData => "No cached data available. Please check your connection."
  }

  /** The decimal digits of `n`, as `String(status)` writes them. */
  function DecimalText(n: nat): (digits: string)
    ensures |digits| > 0
    ensures AllDigits(digits) && DigitsValue(digits) == n
    ensures |digits| == 1 || digits[0] != '0'
    decreases n
  {
    if n < 10 then ["0123456789"[n]]
    else
      var digits := DecimalText(n / 10) + ["0123456789"[n % 10]];
      assert digits[..|digits| - 1] == DecimalText(n / 10);
      digits
  }

  predicate AllDigits(s: string)
  {
    forall i :: 0 <= i < |s| ==> '0' <= s[i] <= '9'
  }

  /** The number a string of decimal digits denotes, read most significant
      digit first; it is the reference meaning of `DecimalText`. */
  function DigitsValue(s: string): nat
    requires AllDigits(s)
  {
    if s == [] then 0 else DigitsValue(s[..|s| - 1]) * 10 + (s[|s| - 1] as int - '0' as int)
  }

  /** The classification is a priority order: a timeout code wins over a
      response, a response over a bare request, and only an error with none
      of them is generic. */
  lemma ClassifyPriority(e: RequestError)
    ensures e.code == Some("ECONNABORTED") ==> Classify(e) == ConnectionTimeout
    ensures e.code != Some("ECONNABORTED") && e.response.Some? ==> Classify(e) == ServerError(e.response.value)
    ensures e.code != Some("ECONNABORTED") && e.response.None? && e.request ==> Classify(e) == NoResponse
    ensures Classify(e) == LoadFailed <==> e.code != Some("ECONNABORTED") && e.response.None? && !e.request
    ensures Classify(e) != Offline && Classify(e) != NoCachedData
  {
  }

  /** An empty body is reported as the generic load error. */
  lemma EmptyBodyIsGenericError()
    ensures !Succeeded(Response([]))
    ensures Classify(Thrown(Response([]))) == LoadFailed
  {
  }

  // ---------------------------------------------------------------------------
  // Retry scheduling

  /** The retry decision of the `catch` block: the delay of the retry it
      schedules, if any, and `retryCount` afterwards. */
  datatype RetryPlan = RetryPlan(delay: Option<nat>, retryCount: nat)

  function PlanRetry(isRetry: bool, retryCount: nat): (p: RetryPlan)
    ensures p.retryCount == retryCount + (if p.delay.Some? then 1 else 0)
    ensures p.delay.Some? ==> !isRetry && p.delay.value == RETRY_DELAY_STEP * p.retryCount
    ensures retryCount <= MAX_RETRIES ==> p.retryCount <= MAX_RETRIES
  {
    if !isRetry && retryCount < MAX_RETRIES then RetryPlan(Some(RETRY_DELAY_STEP * (retryCount + 1)), retryCount + 1)
    else RetryPlan(None, retryCount)
  }

  /** A retry never schedules another, the count never passes the bound, and
      a scheduled delay grows linearly with the new count. */
  lemma RetryPlanBounds(isRetry: bool, retryCount: nat)
    requires retryCount <= MAX_RETRIES
    ensures PlanRetry(isRetry, retryCount).retryCount <= MAX_RETRIES
    ensures isRetry ==> PlanRetry(isRetry, retryCount) == RetryPlan(None, retryCount)
    ensures PlanRetry(isRetry, retryCount).delay.Some?
        <==> !isRetry && retryCount < MAX_RETRIES
    ensures PlanRetry(isRetry, retryCount).delay.Some?
        ==> PlanRetry(isRetry, retryCount).delay.value == RETRY_DELAY_STEP * PlanRetry(isRetry, retryCount).retryCount
  {
  }

  /** The delays scheduled by a run of failed fetches, `calls[i]` being the
      `isRetry` argument of the i-th, starting from count `retryCount`. */
  function RetryDelays(retryCount: nat, calls: seq<bool>): seq<nat>
    decreases |calls|
  {
    if |calls| == 0 then []
    else
      var plan := PlanRetry(calls[0], retryCount);
      (if plan.delay.Some? then [plan.delay.value] else []) + RetryDelays(plan.retryCount, calls[1..])
  }

  /** However many fetches fail in a row, at most 3 retries are scheduled in
      all (fewer when the count has already risen), with delays 2 s, 4 s, 6 s
      in order. */
  lemma {:induction false} RetriesAreBoundedAndLinear(retryCount: nat, calls: seq<bool>)
    requires retryCount <= MAX_RETRIES
    ensures |RetryDelays(retryCount, calls)| <= MAX_RETRIES - retryCount
    ensures forall i :: 0 <= i < |RetryDelays(retryCount, calls)|
              ==> RetryDelays(retryCount, calls)[i] == RETRY_DELAY_STEP * (retryCount + i + 1)
    decreases |calls|
  {
    if |calls| > 0 {
      var plan := PlanRetry(calls[0], retryCount);
      RetriesAreBoundedAndLinear(plan.retryCount, calls[1..]);
      var rest := RetryDelays(plan.retryCount, calls[1..]);
      if plan.delay.Some? {
        assert RetryDelays(retryCount, calls) == [plan.delay.value] + rest;
        forall i | 0 <= i < |rest| + 1
          ensures ([plan.delay.value] + rest)[i] == RETRY_DELAY_STEP * (retryCount + i + 1)
        {
          if i > 0 {
            assert ([plan.delay.value] + rest)[i] == rest[i - 1];
          }
        }
      } else {
        assert RetryDelays(retryCount, calls) == rest;
      }
    }
  }

  // ---------------------------------------------------------------------------
  // Navigation

  /** `handleNextJoke`'s index arithmetic for `n` jokes: one step forward,
      wrapping from the last joke to the first. */
  function NextIndex(i: nat, n: nat): (r: nat)
    requires n > 0
    ensures r < n
    ensures i + 1 < n ==> r == i + 1
    ensures i + 1 == n ==> r == 0
  {
    (i + 1) % n
  }

  /** The index after `k` presses of "next". */
  function Advanced(i: nat, n: nat, k: nat): nat
    requires n > 0
    decreases k
  {
    if k == 0 then i else Advanced(NextIndex(i, n), n, k - 1)
  }

  lemma {:induction false} AdvanceWithoutWrap(i: nat, n: nat, k: nat)
    requires i + k < n
    ensures Advanced(i, n, k) == i + k
    decreases k
  {
    if k > 0 {
      AdvanceWithoutWrap(i + 1, n, k - 1);
    }
  }

  lemma {:induction false} AdvanceSplits(i: nat, n: nat, a: nat, b: nat)
    requires n > 0
    ensures Advanced(i, n, a + b) == Advanced(Advanced(i, n, a), n, b)
    decreases a
  {
    if a > 0 {
      AdvanceSplits(NextIndex(i, n), n, a - 1, b);
    }
  }

  /** `n` presses of "next" over `n` jokes come back to the joke shown. */
  lemma AdvanceFullCycle(i: nat, n: nat)
    requires i < n
    ensures Advanced(i, n, n) == i
  {
    AdvanceSplits(i, n, n - 1 - i, i + 1);
    AdvanceWithoutWrap(i, n, n - 1 - i);
    AdvanceWithoutWrap(0, n, i);
  }

  // ---------------------------------------------------------------------------
  // The component's state and its transitions

  /** The component's state hooks, localStorage, and the number of requests
      sent to the server (the model's measure of network use). */
  datatype AppState = AppState(
    dt: seq<Joke>,
    currentIndex: nat,
    error: Option<Notice>,
    loading: bool,
    isOnline: bool,
    retryCount: nat,
    lastUpdated: Option<nat>,
    storage: LocalStorage,
    requestsSent: nat)

  /** The state on the first render: `online` is `navigator.onLine`. */
  function InitialState(online: bool, storage: LocalStorage): AppState
  {
    AppState([], 0, None, true, online, 0, None, storage, 0)
  }

  /** `loadFromCache()`: the state afterwards and what it returns. */
  function LoadStep(s: AppState): (r: (AppState, bool))
    ensures r.1 <==> Load(s.storage).Some?
    ensures r.0 == s.(dt := r.0.dt)
    ensures r.1 ==> r.0.dt == Load(s.storage).value
    ensures !r.1 ==> r.0 == s
  {
    match Load(s.storage)
    case Some(jokes) => (s.(dt := jokes), true)
    case None => (s, false)
  }

  /** `updateCache(data)` at clock reading `now`: `lastUpdated` is set only
      when both writes went through. */
  function PersistStep(s: AppState, data: seq<Joke>, now: nat, fault: WriteFault): (r: AppState)
    ensures r == s.(storage := r.storage, lastUpdated := r.lastUpdated)
    ensures fault == NoFault ==> r.lastUpdated == Some(now) && Load(r.storage) == Some(data) && IsCacheValid(r.storage, now)
    ensures fault != NoFault ==> r.lastUpdated == s.lastUpdated
  {
    s.(storage := Persist(s.storage, data, now, fault),
       lastUpdated := if fault == NoFault then Some(now) else s.lastUpdated)
  }

  /** `fetchData(isRetry)`: the state afterwards and the delay of the retry it
      schedules. `online` is `navigator.onLine`, `outcome` what the request
      meets, `now` the clock when it settles. */
  function FetchStep(s: AppState, isRetry: bool, online: bool, now: nat, outcome: NetworkOutcome, fault: WriteFault)
    : (r: (AppState, Option<nat>))
    ensures !r.0.loading
    ensures r.0.requestsSent == s.requestsSent + (if online then 1 else 0)
    ensures r.0.currentIndex == s.currentIndex && r.0.isOnline == s.isOnline
    ensures s.retryCount <= MAX_RETRIES ==> r.0.retryCount <= MAX_RETRIES
    ensures isRetry ==> r.1 == None
    ensures r.1.Some? ==> online && r.0.retryCount == s.retryCount + 1
  {
    if !online then
      (LoadStep(s.(error := Some(Offline))).0.(loading := false), None)
    else
      var sent := s.(loading := true, requestsSent := s.requestsSent + 1);
      if Succeeded(outcome) then
        (PersistStep(sent.(dt := outcome.data), outcome.data, now, fault)
           .(error := None, retryCount := 0, loading := false), None)
      else
        var plan := PlanRetry(isRetry, s.retryCount);
        var (loaded, found) := LoadStep(sent.(error := Some(Classify(Thrown(outcome))), retryCount := plan.retryCount));
        ((if found then loaded else loaded.(error := Some(NoCachedData))).(loading := false), plan.delay)
  }

  /** `handleOffline`. */
  function OfflineStep(s: AppState): (r: AppState)
    ensures !r.isOnline && r.error == Some(Offline)
    ensures r.requestsSent == s.requestsSent && r.loading == s.loading && r.storage == s.storage
  {
    LoadStep(s.(isOnline := false, error := Some(Offline))).0
  }

  /** `handleOnline`: always fetches. */
  function OnlineStep(s: AppState, now: nat, outcome: NetworkOutcome, fault: WriteFault): (r: (AppState, Option<nat>))
    ensures r.0.isOnline && r.0.requestsSent == s.requestsSent + 1
  {
    FetchStep(s.(isOnline := true), false, true, now, outcome, fault)
  }

  /** The body of the mount effect. */
  function MountStep(s: AppState, online: bool, now: nat, outcome: NetworkOutcome, fault: WriteFault): (r: (AppState, Option<nat>))
    ensures r.0.requestsSent == s.requestsSent + (if online && !IsCacheValid(s.storage, now) then 1 else 0)
    ensures online && IsCacheValid(s.storage, now) ==> r.0 == LoadStep(s).0.(loading := false) && r.1 == None
  {
    var loaded := LoadStep(s).0;
    if online then
      if !IsCacheValid(loaded.storage, now) then FetchStep(loaded, false, online, now, outcome, fault)
      else (loaded.(loading := false), None)
    else
      (OfflineStep(loaded), None)
  }

  /** `handleNextJoke`. */
  function NextStep(s: AppState): (r: AppState)
    requires |s.dt| > 0
    ensures r.currentIndex < |s.dt|
    ensures r == s.(currentIndex := r.currentIndex)
  {
    s.(currentIndex := NextIndex(s.currentIndex, |s.dt|))
  }

  /** The mount effect depends on `fetchData`, which is rebuilt whenever
      `retryCount` changes, so every failed fetch that schedules a retry also
      re-runs the effect. With a stale cache and a server that keeps failing,
      the page sends 4 requests one after another, each as soon as the
      previous one fails, and schedules retries of 2000, 4000 and 6000 ms
      besides. */
  lemma MountRerunsOnRetryCountChange(st: LocalStorage, now: nat, outcome: NetworkOutcome, fault: WriteFault)
    requires !IsCacheValid(st, now) && !Succeeded(outcome)
    ensures var m1 := MountStep(InitialState(true, st), true, now, outcome, fault);
            var m2 := MountStep(m1.0, true, now, outcome, fault);
            var m3 := MountStep(m2.0, true, now, outcome, fault);
            var m4 := MountStep(m3.0, true, now, outcome, fault);
            m4.0.requestsSent == 4 && m4.0.retryCount == MAX_RETRIES
            && [m1.1, m2.1, m3.1, m4.1] == [Some(2000), Some(4000), Some(6000), None]
  {
  }

  /** `updateCache(d)` at time `t` followed by `loadFromCache()` returns true
      and shows exactly `d`. */
  lemma UpdateThenLoadRoundTrip(s: AppState, d: seq<Joke>, t: nat)
    ensures LoadStep(PersistStep(s, d, t, NoFault)).1
    ensures LoadStep(PersistStep(s, d, t, NoFault)).0.dt == d
    ensures LoadStep(PersistStep(s, d, t, NoFault)).0.lastUpdated == Some(t)
  {
  }

  /** `loadFromCache` never fails: when the key is absent or does not parse
      it returns false and changes nothing; otherwise it only replaces `dt`. */
  lemma LoadNeverThrows(s: AppState)
    ensures !LoadStep(s).1 <==> Load(s.storage) == None
    ensures !LoadStep(s).1 ==> LoadStep(s).0 == s
    ensures LoadStep(s).1 ==> LoadStep(s).0 == s.(dt := Load(s.storage).value)
  {
  }

  /** Offline, `fetchData` sends nothing, shows the offline notice, falls back
      to the persisted jokes and schedules nothing. */
  lemma OfflineFetchSendsNothing(s: AppState, isRetry: bool, now: nat, outcome: NetworkOutcome, fault: WriteFault)
    ensures var (s', delay) := FetchStep(s, isRetry, false, now, outcome, fault);
            && s'.requestsSent == s.requestsSent
            && s'.error == Some(Offline)
            && s'.dt == (if Load(s.storage).Some? then Load(s.storage).value else s.dt)
            && s'.storage == s.storage && s'.retryCount == s.retryCount
            && !s'.loading && delay == None
  {
  }

  /** Online, `fetchData` clears the error exactly when the body is non-empty;
      it then shows and persists that body and resets the retry count. */
  lemma FetchSucceedsOnlyOnData(s: AppState, isRetry: bool, now: nat, outcome: NetworkOutcome, fault: WriteFault)
    ensures var (s', delay) := FetchStep(s, isRetry, true, now, outcome, fault);
            && s'.requestsSent == s.requestsSent + 1
            && !s'.loading
            && (s'.error == None <==> Succeeded(outcome))
            && (Succeeded(outcome) ==>
                  && s'.dt == outcome.data
                  && s'.storage == Persist(s.storage, outcome.data, now, fault)
                  && s'.retryCount == 0 && delay == None)
  {
  }

  /** On a failed request the notice is the classified error, unless the
      fallback finds no persisted jokes, which overrides it; the persisted
      jokes, if any, are shown; localStorage is untouched; and the retry
      follows the retry decision. */
  lemma FetchFailureFallsBack(s: AppState, isRetry: bool, now: nat, outcome: NetworkOutcome, fault: WriteFault)
    requires !Succeeded(outcome)
    ensures var (s', delay) := FetchStep(s, isRetry, true, now, outcome, fault);
            && s'.error == Some(if Load(s.storage).Some? then Classify(Thrown(outcome)) else NoCachedData)
            && s'.dt == (if Load(s.storage).Some? then Load(s.storage).value else s.dt)
            && s'.storage == s.storage
            && delay == PlanRetry(isRetry, s.retryCount).delay
            && s'.retryCount == PlanRetry(isRetry, s.retryCount).retryCount
  {
  }

  /** No fetch ever takes the retry count past 3, and a retry schedules nothing. */
  lemma FetchKeepsRetryBound(s: AppState, isRetry: bool, online: bool, now: nat, outcome: NetworkOutcome, fault: WriteFault)
    requires s.retryCount <= MAX_RETRIES
    ensures FetchStep(s, isRetry, online, now, outcome, fault).0.retryCount <= MAX_RETRIES
    ensures isRetry ==> FetchStep(s, isRetry, online, now, outcome, fault).1 == None
  {
  }

  /** The mount effect sends a request exactly when the browser is online and
      the persisted cache is not valid. */
  lemma MountFetchesOnlyWhenStale(s: AppState, online: bool, now: nat, outcome: NetworkOutcome, fault: WriteFault)
    ensures MountStep(s, online, now, outcome, fault).0.requestsSent
         == s.requestsSent + (if online && !IsCacheValid(s.storage, now) then 1 else 0)
    ensures !online ==> MountStep(s, online, now, outcome, fault).0.error == Some(Offline)
    ensures !online ==> MountStep(s, online, now, outcome, fault).0.loading == s.loading
  {
  }

  /** The `online` event fetches whatever the state of the persisted cache. */
  lemma OnlineEventAlwaysFetches(s: AppState, now: nat, outcome: NetworkOutcome, fault: WriteFault)
    ensures OnlineStep(s, now, outcome, fault).0.requestsSent == s.requestsSent + 1
    ensures OnlineStep(s, now, outcome, fault).0.isOnline
  {
  }

  /** "Next" keeps the index inside the jokes and, pressed `|dt|` times from a
      shown joke, returns to it. */
  lemma NextStepCycles(s: AppState)
    requires |s.dt| > 0
    ensures NextStep(s).currentIndex < |s.dt|
    ensures s.currentIndex < |s.dt| ==> Advanced(s.currentIndex, |s.dt|, |s.dt|) == s.currentIndex
  {
    if s.currentIndex < |s.dt| {
      AdvanceFullCycle(s.currentIndex, |s.dt|);
    }
  }

  // ---------------------------------------------------------------------------
  // The component

  class App {
    var dt: seq<Joke>
    var currentIndex: nat
    var error: Option<Notice>
    var loading: bool
    var isOnline: bool
    var retryCount: nat
    var lastUpdated: Option<nat>
    /** The browser's localStorage, as far as this component uses it. */
    var storage: LocalStorage
    var requestsSent: nat

    function State(): AppState
      reads this
    {
      AppState(dt, currentIndex, error, loading, isOnline, retryCount, lastUpdated, storage, requestsSent)
    }

    ghost predicate Valid()
      reads this
    {
      retryCount <= MAX_RETRIES
    }

    constructor (online: bool, persisted: LocalStorage)
      ensures Valid()
      ensures State() == InitialState(online, persisted)
    {
      dt, currentIndex, error, loading := [], 0, None, true;
      isOnline, retryCount, lastUpdated := online, 0, None;
      storage, requestsSent := persisted, 0;
    }

    method UpdateCache(data: seq<Joke>, now: nat, fault: WriteFault)
      modifies this`storage, this`lastUpdated
      ensures State() == PersistStep(old(State()), data, now, fault)
    {
      if fault == PayloadRejected {
        return;
      }
      storage := storage.(cachedJokes := Some(Parsed(data)));
      if fault == TimestampRejected {
        return;
      }
      storage := storage.(jokeCacheTimestamp := Some(Parsed(now)));
      lastUpdated := Some(now);
    }

    method LoadFromCache() returns (found: bool)
      modifies this`dt
      ensures (State(), found) == LoadStep(old(State()))
    {
      match storage.cachedJokes
      case Some(Parsed(jokes)) =>
        dt := jokes;
        found := true;
      case _ =>
        found := false;
    }

    method FetchData(isRetry: bool, online: bool, now: nat, outcome: NetworkOutcome, fault: WriteFault)
      returns (retryDelay: Option<nat>)
      requires Valid()
      modifies this
      ensures Valid()
      ensures (State(), retryDelay) == FetchStep(old(State()), isRetry, online, now, outcome, fault)
    {
      retryDelay := None;
      if !online {
        error := Some(Offline);
        var _ := LoadFromCache();
        loading := false;
        return;
      }
      loading := true;
      requestsSent := requestsSent + 1;
      if Succeeded(outcome) {
        dt := outcome.data;
        UpdateCache(outcome.data, now, fault);
        error := None;
        retryCount := 0;
      } else {
        error := Some(Classify(Thrown(outcome)));
        var plan := PlanRetry(isRetry, retryCount);
        retryDelay, retryCount := plan.delay, plan.retryCount;
        var found := LoadFromCache();
        if !found {
          error := Some(NoCachedData);
        }
      }
      loading := false;
    }

    method HandleOffline()
      modifies this
      ensures State() == OfflineStep(old(State()))
    {
      isOnline := false;
      error := Some(Offline);
      var _ := LoadFromCache();
    }

    method HandleOnline(now: nat, outcome: NetworkOutcome, fault: WriteFault) returns (retryDelay: Option<nat>)
      requires Valid()
      modifies this
      ensures Valid()
      ensures (State(), retryDelay) == OnlineStep(old(State()), now, outcome, fault)
    {
      isOnline := true;
      retryDelay := FetchData(false, true, now, outcome, fault);
    }

    method Mount(online: bool, now: nat, outcome: NetworkOutcome, fault: WriteFault) returns (retryDelay: Option<nat>)
      requires Valid()
      modifies this
      ensures Valid()
      ensures (State(), retryDelay) == MountStep(old(State()), online, now, outcome, fault)
    {
      var _ := LoadFromCache();
      retryDelay := None;
      if online {
        if !IsCacheValid(storage, now) {
          retryDelay := FetchData(false, online, now, outcome, fault);
        } else {
          loading := false;
        }
      } else {
        HandleOffline();
      }
    }

    method HandleNextJoke()
      requires |dt| > 0
      modifies this`currentIndex
      ensures State() == NextStep(old(State()))
      ensures currentIndex < |dt|
    {
      currentIndex := NextIndex(currentIndex, |dt|);
    }

    method HandleRefresh(online: bool, now: nat, outcome: NetworkOutcome, fault: WriteFault) returns (retryDelay: Option<nat>)
      requires Valid()
      requires !loading && isOnline
      modifies this
      ensures Valid()
      ensures (State(), retryDelay) == FetchStep(old(State()), false, online, now, outcome, fault)
    {
      retryDelay := FetchData(false, online, now, outcome, fault);
    }
  }
}
