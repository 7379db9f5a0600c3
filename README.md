# ucache: a memoizing cache over ristretto, modelled in Dafny

`ucache` wraps a computation so that repeated calls under the same key skip it.
Its engine, `Ristretto`, sits on a cost-bounded, TTL-aware key/value store and
reports one hit or one miss per call to a metrics sink, per operation label.
There are two call shapes:

- `DoWithError` remembers only that a computation succeeded. It stores the
  marker `"doneRecently"`.
- `GetObjectWithError` remembers the computed value. It stores the value only
  if the size of its JSON encoding passes an admission test.

`NewRistretto` sizes the store from a `Config`:

- ten counters per expected item;
- a cost budget of `ItemsNum * AverageItemCost`;
- a write buffer of 64.

It also copies the cost, the admission bounds and the TTL into the engine.

The project has four files:

- `go_runtime.dfy` (module `GoRuntime`): Go's 64-bit `int` wrap-around, `error`
  values and `errors.Wrap`, and the dynamic values of type `any`.
- `config.dfy` (module `UcacheConfig`): the `Config` record.
- `ristretto.dfy` (module `RistrettoCache`): the constants, the sizing, the
  admission test, and `DoStep`/`GetStep`. These two functions say what one call
  returns and which store and counters it leaves. The module also holds the
  classes `Store` (the key/value store), `Metrics` (the counter sink) and
  `Ristretto` (the engine), and the method `NewRistretto`.
  `Ristretto.DoWithError` and `Ristretto.GetObjectWithError` follow the Go code
  statement by statement. Each is proved equal to its step function and to keep
  the invariant that every entry is charged `averageItemCost`.
- `properties.dfy` (module `RistrettoProperties`): lemmas about single calls,
  about pairs of calls, and about whole sequences of calls (`Run`).

What the cache cannot decide itself comes in as parameters of each call:

- what `cachedFn` returns: an `Option<Error>`, or a `Result<Value>`;
- the length of `json.Marshal`'s output, or its error: the function `encode`;
- the time `now` at which the key is looked up, in the same unit as the TTL;
- the time `written` at which the store records a write. The store reads its
  clock again inside `SetWithTTL`, which runs only after `cachedFn` (and, for
  objects, `json.Marshal`) has returned, so a slow computation does not shorten
  the TTL window;
- whether the store accepts a write: `accepted`.

Each method also has a ghost output `invoked`, which records whether the
computation ran. An entry recorded at time `written` expires at `written + ttl`.
A lookup at time `now` finds it only while `now < written + ttl`.

On an encoding failure, the code returns `(nil, err)` and drops the computed
value (`ristretto.go:93-95`); see `GetObjectMarshalFailure`.

The admission test is `len >= min || len <= max` (`ristretto.go:97`). It is
reproduced as written. `Admits` proves it rejects exactly the sizes strictly
between `max` and `min`. `AdmissionIsVacuous` proves it accepts every size
whenever `min <= max + 1`.

## Model

| member | source | states |
|---|---|---|
| `GoRuntime.WrapInt64` | ristretto.go:31-32 | The result of Go's 64-bit `int` arithmetic: it lies in the int64 range, it is congruent to the exact result modulo 2^64, and it equals the exact result when that result fits. |
| `RistrettoCache.Sizing` | ristretto.go:30-34 | The store gets `BufferItems = 64`. `NumCounters = ItemsNum * 10` and `MaxCost = ItemsNum * AverageItemCost` whenever the product fits in 64 bits; otherwise they are the wrapped products, always within int64. |
| `RistrettoCache.Admits` | ristretto.go:97 | The admission test rejects a size exactly when it lies strictly between the maximum and the minimum bound. |
| `RistrettoCache.Store.constructor` | ristretto.go:30-34 | A new store holds the sizing it was given and no entries. |
| `RistrettoCache.Store.Get` | ristretto.go:78 | `found` is true exactly when the key holds an entry whose expiry is later than `now`. The value is that entry's value when found, and `nil` otherwise. |
| `RistrettoCache.Store.SetWithTTL` | ristretto.go:98 | An accepted write puts the value under the key with the given cost and expiry `now + ttl`. A refused write changes nothing. |
| `RistrettoCache.Metrics.IncHits` | ristretto.go:80 | The label's hit counter goes up by one. No other hit counter changes, and no miss counter changes. |
| `RistrettoCache.Metrics.IncMisses` | ristretto.go:85 | The label's miss counter goes up by one. No other miss counter changes, and no hit counter changes. |
| `RistrettoCache.Ristretto.constructor` | ristretto.go:39-46 | The engine keeps the given store and sink, and copies the average cost, both admission bounds and the TTL unchanged from the configuration. Given a store whose entries are all charged the average cost, it establishes the charged-cost invariant. |
| `RistrettoCache.NewRistretto` | ristretto.go:29-47 | If the store library refuses the computed sizing, the result is `nil` plus its error wrapped with "can't create ristretto cache". Otherwise the result is a fresh engine over a fresh, empty store with that sizing. The engine uses the given sink, copies the configured settings, and holds its invariant. |
| `RistrettoCache.Ristretto.DoWithError` | ristretto.go:49-70 | The returned error, the `invoked` flag, the new store and the new counters are exactly those of `DoStep` applied to the old state, with the lookup at `now` and the write at `written`. The charged-cost invariant is preserved. |
| `RistrettoCache.Ristretto.GetObjectWithError` | ristretto.go:72-102 | The returned value and error, the `invoked` flag, the new store and the new counters are exactly those of `GetStep` applied to the old state, with the lookup at `now` and the write at `written`. The charged-cost invariant is preserved. |
| `RistrettoProperties.CallBumpsOneCounter` | ristretto.go:55-85 | Every call of either operation raises exactly one counter of its own label, by one: the hit counter if and only if the key was found, otherwise the miss counter. No other label's counters change. |
| `RistrettoProperties.DoWithErrorHit` | ristretto.go:55-59 | On a hit, `DoWithError` returns `nil` without running the computation, and the store is unchanged. |
| `RistrettoProperties.DoWithErrorFailure` | ristretto.go:61-65 | On a miss whose computation fails, the computation runs once and its own error is returned. Nothing is stored. |
| `RistrettoProperties.DoWithErrorSuccess` | ristretto.go:67-69 | On a successful miss, `nil` is returned. If the store accepts the write, the marker `"doneRecently"` is stored under the key with cost `averageItemCost` and expiry `written + ttl`, counted from when the store records the write. |
| `RistrettoProperties.GetObjectHit` | ristretto.go:78-83 | On a hit, the stored value is returned with a `nil` error, without running the computation, and the store is unchanged. |
| `RistrettoProperties.GetObjectFailure` | ristretto.go:85-90 | On a miss whose computation fails, the computation runs and `(nil, err)` is returned with its error. Nothing is stored. |
| `RistrettoProperties.GetObjectMarshalFailure` | ristretto.go:92-95 | If the computed value cannot be encoded, the result is `nil` (not the value) with the encoder's error wrapped with "can't marshal received object". Nothing is stored. |
| `RistrettoProperties.GetObjectSuccess` | ristretto.go:97-101 | On a miss with an encodable value, `(value, nil)` is returned whether or not the value is stored. It is stored under the key with cost `averageItemCost` and expiry `written + ttl` exactly when its size passes admission and the store accepts the write. |
| `RistrettoProperties.AdmissionIsVacuous` | ristretto.go:97 | When the minimum is at most one more than the maximum, every encoded size passes admission. |
| `RistrettoProperties.OperationDoesNotSelectEntry` | ristretto.go:55-98 | Changing a call's operation label changes neither its reply nor the store it leaves. Only `key` selects the entry that is read or written. |
| `RistrettoProperties.StoreChangesOnlyOnWrite` | ristretto.go:49-102 | A call writes the store if and only if it is a miss, its computation succeeds (and, for the object call, its value encodes and is admitted), and the store accepts the write. A writing call sets exactly the one entry under the key, with expiry counted from the write's time. Every other call leaves the store as it was. |
| `RistrettoProperties.ExpiryWindow` | ristretto.go:67 | An entry the store records at time `written` is found at every time before `written + ttl` and missed at every time from `written + ttl` on, however late the computation returned. |
| `RistrettoProperties.CostDoesNotAffectLookups` | ristretto.go:98 | Two engines that differ only in the average item cost find the same values at every key and time after the same call. |
| `RistrettoProperties.TtlDoesNotAffectAdmission` | ristretto.go:97-98 | Two engines that differ only in the TTL write on exactly the same calls, hold the same keys afterwards, and charge every entry the same cost. Together with `CostDoesNotAffectLookups`, admission and expiry are independent in both directions. |
| `RistrettoProperties.HitAfterWrite` | ristretto.go:55-83 | After a call that writes, a later call with the same key looked up before the write's time plus the TTL is a hit. It does not run its computation and returns a `nil` error. An object call returns the value stored by the first call, which is the marker if the first call was `DoWithError`. The store is unchanged. |
| `RistrettoProperties.FailureNotMemoized` | ristretto.go:61-95 | Start from a store where the key is absent at time t, then run calls at times from t on in which no call on that key succeeds. Every call on the key misses and runs its computation, and the key stays absent at every time from t on. |
| `RistrettoProperties.RunCountsEveryCall` | ristretto.go:55-85 | Over any sequence of calls, a label's hits plus misses grow by exactly the number of calls that carry that label. |
| `RistrettoProperties.HitsWhileLive` | ristretto.go:55-59 | While the key stays live, every call in a sequence on that key and label is a hit. The store is unchanged, the hit counter grows by the number of calls, and the miss counter stays the same. |
| `RistrettoProperties.RepeatedCallsAccounting` | ristretto.go:55-69 | Take N calls on one key and label, where the first is a miss that writes and the others are looked up before its write time plus the TTL. The miss counter rises by exactly 1 and the hit counter by exactly N - 1. |
| `RistrettoProperties.RunKeepsCharged` | ristretto.go:67-98 | Over any sequence of calls, every entry stays charged `averageItemCost`. |
| `RistrettoProperties.StoredValuesComputed` | ristretto.go:63-99 | Over any sequence of calls, the store holds only values it started with, the marker, or values that some call's computation returned. |
| `RistrettoProperties.LastWriter` | ristretto.go:67-98 | The result is the largest index of a call in the run that writes under the key, each call judged in the state the run had reached when it was made, or -1 when no call does. |
| `RistrettoProperties.EntryIsLatestWrite` | ristretto.go:67-98 | After any run, the entry under a key is the one its last writing call stored: that call's value, the average cost, and that call's write time plus the TTL. If no call in the run wrote the key, the entry is the one the store started with, or there is none. |
| `RistrettoProperties.HitReturnsLatestWrite` | ristretto.go:78-82 | Value fidelity: an object-call hit after any run returns the value stored by the last call of the run that wrote its key, and is looked up before that write's time plus the TTL. If no call of the run wrote the key, it returns the value the store started with. |
| `RistrettoProperties.ExampleScenario` | ristretto.go:72-102 | Concrete run with 100 items, cost 1 and a 1 s TTL. The first call computes 42 and counts one miss. An immediate second call returns 42 without computing and counts one hit. A call 1.1 s later misses and computes again. |
| `RistrettoProperties.SlowComputationKeepsFullWindow` | ristretto.go:55-67 | Concrete run with a 1 s TTL: a `DoWithError` looked up at 0 s whose computation returns at 2 s stores the marker then. A call at 2.5 s is a hit that does not run its computation. A call at 3 s misses and runs it again. |

## Left out

- The `ctx` parameter of both operations is never used by the code, so it is not modelled.
- `Cache` in `int_cache.go` is a Go interface over the same two methods. It has no behaviour, and `Ristretto` is its only implementation, so it is not modelled separately.
- The ristretto store's internals are not modelled: TinyLFU admission, sharding, sampling and cost-pressure eviction. A write is an insert that the store may refuse (the `accepted` flag). Entries are never evicted. The lemmas about later calls therefore hold only when there is no eviction in between.
- Writes to the store are buffered and asynchronous, so a lookup just after a write may still miss. This is modelled only as a refused write, not as delayed visibility.
- Expiry follows one assumption about the store: `Get` does not return an entry whose expiry time is at or before `now`. TTL values that the store library treats specially, such as zero or negative, get no special treatment.
- The rules by which `ristretto.NewCache` refuses a sizing belong to the library. They are the parameter `newCache`.
- `json.Marshal` is a foreign call. It is the parameter `encode`, which gives a length or an error for each value. Encoded bytes are not modelled.
- The text that `errors.Wrap` produces is not modelled. A wrapped error is its message plus its cause.
- The promcommon metrics sink is modelled only as two counter maps.
- Concurrency, racing misses and single-flight are not modelled. Calls run one at a time.
- The model assumes a 64-bit platform, where Go's `int` is 64 bits wide. On a 32-bit target the products at `ristretto.go:31-32` would wrap at 32 bits instead.
- `time.Duration` is a plain integer in the clock's unit. The addition `written + ttl` cannot overflow in the model.
- The clock is not modelled. Each call carries its two readings, `now` and `written`, and the model does not require `written` to be at or after `now`.
- `ristretto.go:43-44` reads `MinItemCost`/`MaxItemCost`, but `ucache.go` declares `MinCacheableItemCost`/`MaxCacheableItemCost`. The model uses the `ucache.go` names and does not model the mismatch.
- A `cachedFn` is an outcome value, so its own side effects are not modelled. The ghost flag `invoked` records whether it ran.
