/**
  The memoizing cache engine built on a cost-bounded, TTL-aware key/value store.

  Each call of the two memoization operations is given, besides the key and the
  operation label, everything the cache cannot decide itself: what the wrapped
  computation would return (`cachedFn`), how the JSON encoder measures a value
  (`encode`), the time of the lookup (`now`), the time at which the store
  records a write (`written`: the store reads its clock again once the
  computation and the encoder have returned), and whether the store accepts a
  write (`accepted`). `DoStep` and `GetStep` say, as functions, what one call returns
  and what store and counters it leaves behind; the methods of `Ristretto` are
  proved to behave exactly so.
 */
module RistrettoCache {
  import opened GoRuntime
  import opened UcacheConfig

  const RistrettoCountersMultiplier: int := 10
  const RistrettoBufferItems: int := 64
  /** The marker `DoWithError` stores to remember a successful computation. */
  const DoneRecently: string := "doneRecently"

  const CreateFailedMessage: string := "can't create ristretto cache"
  const MarshalFailedMessage: string := "can't marshal received object"

  /** The parameters handed to the underlying store when it is created. */
  datatype StoreConfig = StoreConfig(numCounters: int, maxCost: int, bufferItems: int)

  /** The store's sizing, computed from the configuration in Go's 64-bit `int`:
      ten counters per expected item, a cost budget of `itemsNum` average items,
      and a fixed write buffer. */
  function Sizing(config: Config): (sc: StoreConfig)
    ensures sc.bufferItems == RistrettoBufferItems
    ensures Int64Min <= sc.numCounters <= Int64Max && Int64Min <= sc.maxCost <= Int64Max
    ensures Int64Min <= config.itemsNum * RistrettoCountersMultiplier <= Int64Max ==>
              sc.numCounters == config.itemsNum * RistrettoCountersMultiplier
    ensures Int64Min <= config.itemsNum * config.averageItemCost <= Int64Max ==>
              sc.maxCost == config.itemsNum * config.averageItemCost
  {
    StoreConfig(
      WrapInt64(config.itemsNum * RistrettoCountersMultiplier),
      WrapInt64(config.itemsNum * config.averageItemCost),
      RistrettoBufferItems)
  }

  /** The configuration fields the cache keeps for its own decisions. */
  datatype Settings = Settings(
    averageItemCost: int,
    maxCacheableItemCost: int,
    minCacheableItemCost: int,
    ttl: int
  )

  /** The settings a cache built from `config` works with: copied unchanged. */
  function SettingsOf(config: Config): Settings
  {
    Settings(config.averageItemCost, config.maxCacheableItemCost, config.minCacheableItemCost, config.ttl)
  }

  /** A stored entry: the value, the cost it is charged, and its absolute expiry. */
  datatype Entry = Entry(value: Value, cost: int, expiry: int)

  /** Everything one call can change: the store's entries and the hit and miss
      counters of the metrics sink, per operation label. */
  datatype State = State(
    entries: map<string, Entry>,
    hits: map<string, nat>,
    misses: map<string, nat>
  )

  /** A counter of the metrics sink; a label never incremented reads as zero. */
  function Count(counters: map<string, nat>, operation: string): nat
  {
    if operation in counters then counters[operation] else 0
  }

  /** One increment of the counter for `operation`. */
  function Inc(counters: map<string, nat>, operation: string): (r: map<string, nat>)
    ensures Count(r, operation) == Count(counters, operation) + 1
    ensures forall other :: other != operation ==> Count(r, other) == Count(counters, other)
  {
    counters[operation := Count(counters, operation) + 1]
  }

  /** What the store's `Get` finds under `key` at time `now`: an entry whose
      expiry has passed is treated as absent. */
  function Lookup(entries: map<string, Entry>, key: string, now: int): Option<Value>
  {
    if key in entries && now < entries[key].expiry then Some(entries[key].value) else None
  }

  /** The store after `SetWithTTL` at time `now`; a write the store does not
      accept (admission policy, dropped buffer) leaves it as it was. */
  function Put(entries: map<string, Entry>, key: string, value: Value, cost: int, ttl: int,
               now: int, accepted: bool): map<string, Entry>
  {
    if accepted then entries[key := Entry(value, cost, now + ttl)] else entries
  }

  /** Every entry is charged the configured average item cost. */
  ghost predicate Charged(entries: map<string, Entry>, cost: int)
  {
    forall key | key in entries :: entries[key].cost == cost
  }

  /** The admission test `GetObjectWithError` applies to an encoded size, with
      its two bounds joined by OR as the code has it: it rejects exactly the
      sizes strictly between the maximum and the minimum. */
  function Admits(st: Settings, size: nat): (r: bool)
    ensures r <==> !(st.maxCacheableItemCost < size < st.minCacheableItemCost)
  {
    size >= st.minCacheableItemCost || size <= st.maxCacheableItemCost
  }

  /** What a `DoWithError` call returns, whether it ran `cachedFn`, and the state
      it leaves. */
  datatype DoOutcome = DoOutcome(err: Option<Error>, invoked: bool, state: State)

  /** One `DoWithError` call; `cachedFn` is the error the computation would
      return if it were run. The key is looked up at time `now`; a write is
      recorded at time `written`, after the computation has returned, and its
      TTL counts from then. */
  function DoStep(st: Settings, s: State, key: string, operation: string,
                  cachedFn: Option<Error>, accepted: bool, now: int, written: int): DoOutcome
  {
    if Lookup(s.entries, key, now).Some? then
      DoOutcome(None, false, s.(hits := Inc(s.hits, operation)))
    else
      var missed := s.(misses := Inc(s.misses, operation));
      match cachedFn
      case Some(e) => DoOutcome(Some(e), true, missed)
      case None =>
        DoOutcome(None, true, missed.(entries :=
          Put(missed.entries, key, Str(DoneRecently), st.averageItemCost, st.ttl, written, accepted)))
  }

  /** What a `GetObjectWithError` call returns, whether it ran `cachedFn`, and
      the state it leaves. */
  datatype GetOutcome = GetOutcome(value: Value, err: Option<Error>, invoked: bool, state: State)

  /** One `GetObjectWithError` call; `cachedFn` is what the computation would
      return if it were run, and `encode` gives the length of a value's JSON
      encoding, or the encoder's error. The key is looked up at time `now`; a
      write is recorded at time `written`, after the computation and the
      encoder have returned, and its TTL counts from then. */
  function GetStep(st: Settings, encode: Value -> Result<nat>, s: State, key: string,
                   operation: string, cachedFn: Result<Value>, accepted: bool, now: int,
                   written: int): GetOutcome
  {
    match Lookup(s.entries, key, now)
    case Some(value) => GetOutcome(value, None, false, s.(hits := Inc(s.hits, operation)))
    case None =>
      var missed := s.(misses := Inc(s.misses, operation));
      match cachedFn
      case Err(e) => GetOutcome(Nil, Some(e), true, missed)
      case Ok(value) =>
        match encode(value)
        case Err(e) => GetOutcome(Nil, Some(Wrapped(MarshalFailedMessage, e)), true, missed)
        case Ok(size) =>
          var stored := if Admits(st, size)
                        then Put(missed.entries, key, value, st.averageItemCost, st.ttl, written, accepted)
                        else missed.entries;
          GetOutcome(value, None, true, missed.(entries := stored))
  }

  /** The underlying key/value store, seen through the two operations the cache
      uses. Eviction under cost pressure is not modelled. */
  class Store {
    const config: StoreConfig
    var entries: map<string, Entry>

    constructor (config: StoreConfig)
      ensures this.config == config && entries == map[]
    {
      this.config := config;
      entries := map[];
    }

    method Get(key: string, now: int) returns (value: Value, found: bool)
      ensures found <==> Lookup(entries, key, now).Some?
      ensures value == if found then Lookup(entries, key, now).value else Nil
    {
      if key in entries && now < entries[key].expiry {
        value, found := entries[key].value, true;
      } else {
        value, found := Nil, false;
      }
    }

    method SetWithTTL(key: string, value: Value, cost: int, ttl: int, now: int, accepted: bool)
      modifies this
      ensures entries == Put(old(entries), key, value, cost, ttl, now, accepted)
    {
      if accepted {
        entries := entries[key := Entry(value, cost, now + ttl)];
      }
    }
  }

  /** The metrics sink: one hit counter and one miss counter per operation label. */
  class Metrics {
    var hits: map<string, nat>
    var misses: map<string, nat>

    method IncHits(operation: string)
      modifies this
      ensures hits == Inc(old(hits), operation) && misses == old(misses)
    {
      hits := Inc(hits, operation);
    }

    method IncMisses(operation: string)
      modifies this
      ensures misses == Inc(old(misses), operation) && hits == old(hits)
    {
      misses := Inc(misses, operation);
    }
  }

  class Ristretto {
    const cache: Store
    const cacheMetrics: Metrics
    const averageItemCost: int
    const maxCacheableItemCost: int
    const minCacheableItemCost: int
    const ttl: int

    /** The cache's own writes charge every entry the average item cost. */
    ghost predicate Valid()
      reads cache
    {
      Charged(cache.entries, averageItemCost)
    }

    ghost function Snapshot(): State
      reads cache, cacheMetrics
    {
      State(cache.entries, cacheMetrics.hits, cacheMetrics.misses)
    }

    function AsSettings(): Settings
    {
      Settings(averageItemCost, maxCacheableItemCost, minCacheableItemCost, ttl)
    }

    constructor (cache: Store, cacheMetrics: Metrics, config: Config)
      requires Charged(cache.entries, config.averageItemCost)
      ensures this.cache == cache && this.cacheMetrics == cacheMetrics
      ensures AsSettings() == SettingsOf(config)
      ensures Valid()
    {
      this.cache := cache;
      this.cacheMetrics := cacheMetrics;
      averageItemCost := config.averageItemCost;
      minCacheableItemCost := config.minCacheableItemCost;
      maxCacheableItemCost := config.maxCacheableItemCost;
      ttl := config.ttl;
    }

    method DoWithError(cachedFn: Option<Error>, key: string, operation: string,
                       now: int, written: int, accepted: bool)
      returns (err: Option<Error>, ghost invoked: bool)
      requires Valid()
      modifies cache, cacheMetrics
      ensures Valid()
      ensures DoOutcome(err, invoked, Snapshot())
           == DoStep(AsSettings(), old(Snapshot()), key, operation, cachedFn, accepted, now, written)
    {
      var _, done := cache.Get(key, now);
      if done {
        cacheMetrics.IncHits(operation);
        return None, false;
      }

      cacheMetrics.IncMisses(operation);

      invoked := true;
      if cachedFn.Some? {
        return cachedFn, invoked;
      }

      cache.SetWithTTL(key, Str(DoneRecently), averageItemCost, ttl, written, accepted);

      err := None;
    }

    method GetObjectWithError(cachedFn: Result<Value>, encode: Value -> Result<nat>,
                              key: string, operation: string, now: int, written: int, accepted: bool)
      returns (value: Value, err: Option<Error>, ghost invoked: bool)
      requires Valid()
      modifies cache, cacheMetrics
      ensures Valid()
      ensures GetOutcome(value, err, invoked, Snapshot())
           == GetStep(AsSettings(), encode, old(Snapshot()), key, operation, cachedFn, accepted, now, written)
    {
      var found;
      value, found := cache.Get(key, now);
      if found {
        cacheMetrics.IncHits(operation);
        return value, None, false;
      }

      cacheMetrics.IncMisses(operation);

      invoked := true;
      if cachedFn.Err? {
        return Nil, Some(cachedFn.error), invoked;
      }
      value := cachedFn.value;

      var bytes := encode(value);
      if bytes.Err? {
        return Nil, Some(Wrapped(MarshalFailedMessage, bytes.error)), invoked;
      }

      if bytes.value >= minCacheableItemCost || bytes.value <= maxCacheableItemCost {
        cache.SetWithTTL(key, value, averageItemCost, ttl, written, accepted);
      }

      err := None;
    }
  }

  /** Builds the cache over a new store sized from `config`; `newCache` is the
      store library's verdict on those sizing parameters (`Some` when it refuses
      them). */
  method NewRistretto(cacheMetrics: Metrics, config: Config, newCache: StoreConfig -> Option<Error>)
    returns (r: Ristretto?, err: Option<Error>)
    ensures newCache(Sizing(config)).Some? ==>
              r == null && err == Some(Wrapped(CreateFailedMessage, newCache(Sizing(config)).value))
    ensures newCache(Sizing(config)).None? ==>
              && err == None && r != null && fresh(r) && fresh(r.cache)
              && r.cache.config == Sizing(config) && r.cache.entries == map[]
              && r.cacheMetrics == cacheMetrics
              && r.AsSettings() == SettingsOf(config)
              && r.Valid()
  {
    var sizing := Sizing(config);
    var failure := newCache(sizing);
    if failure.Some? {
      return null, Some(Wrapped(CreateFailedMessage, failure.value));
    }

    var cache := new Store(sizing);
    r := new Ristretto(cache, cacheMetrics, config);
    err := None;
  }
}
