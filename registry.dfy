/** The provider registry with a time-to-live cache and a single in-flight load
    (providerManager/providerManager.js). The clock and the credential store
    are parameters: `now` and `loadTime` are readings of `Date.now()`, and
    `reply` is what `EmailCredential.find()` resolves or rejects with. */
module Registry {
  import opened Common

  /** Five minutes, in milliseconds. */
  const DefaultCacheTTL: int := 5 * 60 * 1000

  /** The `initPromise` field: no load (`null`), a load in flight (a pending
      promise), or a load that failed (a rejected promise that is never
      cleared). */
  datatype LoadState = Idle | Loading | Failed(error: string)

  /** How a call of `init()` proceeds up to its first `await`. */
  datatype InitStep =
    | CacheHit               // returns at once
    | Joined                 // awaits the load already in flight
    | Rejected(error: string) // awaits a failed load and rethrows its error
    | Started                // starts a load: one store query

  class ProviderManager {
    var providers: seq<Provider>
    const cacheTTL: int
    var lastLoaded: int
    var initPromise: LoadState

    /** `new ProviderManager(options)`; the singleton check never fires because
        `ProviderManager.instance` is never assigned. */
    constructor(cacheTTLOption: Option<int>)
      ensures providers == [] && lastLoaded == 0 && initPromise == Idle
      ensures cacheTTL == OrDefault(cacheTTLOption, DefaultCacheTTL)
    {
      providers := [];
      cacheTTL := OrDefault(cacheTTLOption, DefaultCacheTTL);
      lastLoaded := 0;
      initPromise := Idle;
    }

    /** The cache test of `init()`: a non-empty provider list loaded less than
        `cacheTTL` ago. */
    predicate CacheFresh(now: int)
      reads this
    {
      |providers| > 0 && now - lastLoaded < cacheTTL
    }

    /** `getProviders()`. */
    function GetProviders(): seq<Provider>
      reads this
    {
      providers
    }

    /** `getProvider(source)`. */
    function GetProvider(source: Option<string>): Option<Provider>
      reads this
    {
      FindBySource(providers, source)
    }

    /** `init()` up to its first `await`, at time `now`. A fresh cache returns
        at once; otherwise a caller joins the load in flight, rethrows the
        error of a failed load, or starts the only store query. The provider
        list is never touched here. */
    method BeginInit(now: int) returns (step: InitStep)
      modifies this
      ensures providers == old(providers) && lastLoaded == old(lastLoaded)
      ensures old(CacheFresh(now)) ==> step == CacheHit && initPromise == old(initPromise)
      ensures !old(CacheFresh(now)) && old(initPromise) == Loading ==> step == Joined && initPromise == Loading
      ensures !old(CacheFresh(now)) && old(initPromise).Failed? ==>
                step == Rejected(old(initPromise).error) && initPromise == old(initPromise)
      ensures !old(CacheFresh(now)) && old(initPromise) == Idle ==> step == Started && initPromise == Loading
    {
      if |providers| > 0 && now - lastLoaded < cacheTTL {
        return CacheHit;
      }
      match initPromise {
        case Loading =>
          step := Joined;
        case Failed(e) =>
          step := Rejected(e);
        case Idle =>
          initPromise := Loading;
          step := Started;
      }
    }

    /** `_loadProvidersFromDB()` once the store has answered at `loadTime`:
        on success the provider list is replaced by one provider per credential,
        in store order, and `lastLoaded` is set; on failure nothing changes and
        the store's error is rethrown. */
    method LoadProvidersFromDB(reply: Result<seq<Credential>>, loadTime: int) returns (r: Outcome)
      modifies this
      ensures initPromise == old(initPromise)
      ensures reply.Ok? ==> r == Pass && providers == MapProviders(reply.value) && lastLoaded == loadTime
      ensures reply.Err? ==> r == Fail(reply.error) && providers == old(providers) && lastLoaded == old(lastLoaded)
    {
      if reply.Err? {
        return Fail(reply.error);
      }
      providers := MapProviders(reply.value);
      lastLoaded := loadTime;
      r := Pass;
    }

    /** The in-flight load settles: `await this.initPromise` in the caller that
        started it, then `this.initPromise = null`, which a rejection skips.
        Every caller waiting on the load sees the same outcome. */
    method FinishLoad(reply: Result<seq<Credential>>, loadTime: int) returns (r: Outcome)
      requires initPromise == Loading
      modifies this
      ensures reply.Ok? ==> r == Pass && providers == MapProviders(reply.value) && lastLoaded == loadTime
                            && initPromise == Idle
      ensures reply.Err? ==> r == Fail(reply.error) && providers == old(providers)
                             && lastLoaded == old(lastLoaded) && initPromise == Failed(reply.error)
    {
      r := LoadProvidersFromDB(reply, loadTime);
      if r.Fail? {
        initPromise := Failed(r.error);
        return;
      }
      initPromise := Idle;
    }

    /** A whole call of `init()` at time `now` by a caller that waits for it to
        settle; a load in flight, whether started here or joined, settles with
        `reply` at `loadTime`. `queried` tells whether this call queried the
        store. */
    method Init(now: int, reply: Result<seq<Credential>>, loadTime: int) returns (r: Outcome, queried: bool)
      modifies this
      ensures queried <==> !old(CacheFresh(now)) && old(initPromise) == Idle
      ensures old(CacheFresh(now)) ==>
                r == Pass && providers == old(providers) && lastLoaded == old(lastLoaded)
                && initPromise == old(initPromise)
      ensures !old(CacheFresh(now)) && old(initPromise).Failed? ==>
                r == Fail(old(initPromise).error) && providers == old(providers)
                && lastLoaded == old(lastLoaded) && initPromise == old(initPromise)
      ensures !old(CacheFresh(now)) && !old(initPromise).Failed? && reply.Ok? ==>
                r == Pass && providers == MapProviders(reply.value) && lastLoaded == loadTime
                && initPromise == Idle
      ensures !old(CacheFresh(now)) && !old(initPromise).Failed? && reply.Err? ==>
                r == Fail(reply.error) && providers == old(providers) && lastLoaded == old(lastLoaded)
                && initPromise == Failed(reply.error)
    {
      var step := BeginInit(now);
      queried := step == Started;
      match step {
        case CacheHit =>
          r := Pass;
        case Rejected(e) =>
          r := Fail(e);
        case Joined =>
          r := FinishLoad(reply, loadTime);
        case Started =>
          r := FinishLoad(reply, loadTime);
      }
    }

    /** `refreshProviders()` at time `now`: empties the cache, then runs
        `init()`. An idle manager therefore queries the store exactly once
        even right after a load; after a failed load the cleared list stays
        empty and the old error is rethrown. */
    method RefreshProviders(now: int, reply: Result<seq<Credential>>, loadTime: int) returns (r: Outcome, queried: bool)
      modifies this
      ensures queried <==> old(initPromise) == Idle
      ensures old(initPromise).Failed? ==>
                r == Fail(old(initPromise).error) && providers == [] && lastLoaded == 0
                && initPromise == old(initPromise)
      ensures !old(initPromise).Failed? && reply.Ok? ==>
                r == Pass && providers == MapProviders(reply.value) && lastLoaded == loadTime
                && initPromise == Idle
      ensures !old(initPromise).Failed? && reply.Err? ==>
                r == Fail(reply.error) && providers == [] && lastLoaded == 0
                && initPromise == Failed(reply.error)
    {
      providers := [];
      lastLoaded := 0;
      r, queried := Init(now, reply, loadTime);
    }
  }

  /** Single flight: callers that call `init()` one after another while the
      cache misses (no providers, or providers older than the TTL) and before
      the store answers share one load. The first starts the only store query,
      every later one joins it, and all of them see its outcome; a failed load
      leaves the old providers in place. */
  method ConcurrentInits(m: ProviderManager, nows: seq<int>, reply: Result<seq<Credential>>, loadTime: int)
    returns (steps: seq<InitStep>, r: Outcome)
    requires m.initPromise == Idle && |nows| > 0
    requires forall i :: 0 <= i < |nows| ==> !m.CacheFresh(nows[i])
    modifies m
    ensures |steps| == |nows| && steps[0] == Started
    ensures forall i :: 1 <= i < |steps| ==> steps[i] == Joined
    ensures reply.Ok? ==> r == Pass && m.providers == MapProviders(reply.value) && m.lastLoaded == loadTime
                          && m.initPromise == Idle
    ensures reply.Err? ==> r == Fail(reply.error) && m.providers == old(m.providers)
                           && m.lastLoaded == old(m.lastLoaded) && m.initPromise == Failed(reply.error)
  {
    var first := m.BeginInit(nows[0]);
    steps := [first];
    for i := 1 to |nows|
      invariant |steps| == i && steps[0] == Started
      invariant forall k :: 1 <= k < i ==> steps[k] == Joined
      invariant m.providers == old(m.providers) && m.lastLoaded == old(m.lastLoaded) && m.initPromise == Loading
    {
      var step := m.BeginInit(nows[i]);
      steps := steps + [step];
    }
    r := m.FinishLoad(reply, loadTime);
  }
}
