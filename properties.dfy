/**
  What the cache promises, stated over the step functions of `RistrettoCache`:
  first about one call, then about a sequence of calls run one after another.
 */
module RistrettoProperties {
  import opened GoRuntime
  import opened UcacheConfig
  import opened RistrettoCache

  /** One call of either memoization operation, with everything its outcome
      depends on besides the settings, the encoder and the state: `now` is when
      the key is looked up, `written` when the store records a write the call
      makes, once its computation (and encoder) have returned. */
  datatype Call =
    | DoCall(key: string, operation: string, doFn: Option<Error>, accepted: bool, now: int, written: int)
    | GetCall(key: string, operation: string, getFn: Result<Value>, accepted: bool, now: int, written: int)

  /** What a call hands back to its caller; `DoWithError` returns no value, so
      its `value` is `Nil`. */
  datatype Reply = Reply(value: Value, err: Option<Error>, invoked: bool)

  /** The call finds a live entry under its key. */
  predicate Hit(s: State, c: Call)
  {
    Lookup(s.entries, c.key, c.now).Some?
  }

  function Answer(st: Settings, encode: Value -> Result<nat>, s: State, c: Call): Reply
  {
    match c
    case DoCall(key, operation, fn, accepted, now, written) =>
      var o := DoStep(st, s, key, operation, fn, accepted, now, written);
      Reply(Nil, o.err, o.invoked)
    case GetCall(key, operation, fn, accepted, now, written) =>
      var o := GetStep(st, encode, s, key, operation, fn, accepted, now, written);
      Reply(o.value, o.err, o.invoked)
  }

  function Step(st: Settings, encode: Value -> Result<nat>, s: State, c: Call): State
  {
    match c
    case DoCall(key, operation, fn, accepted, now, written) =>
      DoStep(st, s, key, operation, fn, accepted, now, written).state
    case GetCall(key, operation, fn, accepted, now, written) =>
      GetStep(st, encode, s, key, operation, fn, accepted, now, written).state
  }

  /** The state after running `calls` in order from `s`. */
  function Run(st: Settings, encode: Value -> Result<nat>, s: State, calls: seq<Call>): State
    decreases |calls|
  {
    if calls == [] then s else Run(st, encode, Step(st, encode, s, calls[0]), calls[1..])
  }

  /** The value a call would store: the marker for `DoWithError`, the computed
      value for `GetObjectWithError`. */
  function Memo(c: Call): Value
  {
    match c
    case DoCall(_, _, _, _, _, _) => Str(DoneRecently)
    case GetCall(_, _, fn, _, _, _) => if fn.Ok? then fn.value else Nil
  }

  /** The computation succeeds (and, for `GetObjectWithError`, its value can be
      encoded), so the call, if it misses, hands the store something to keep. */
  predicate Succeeds(st: Settings, encode: Value -> Result<nat>, c: Call)
  {
    match c
    case DoCall(_, _, fn, _, _, _) => fn.None?
    case GetCall(_, _, fn, _, _, _) => fn.Ok? && encode(fn.value).Ok?
  }

  /** The call is a miss whose result passes admission and is accepted by the
      store: the one kind of call that writes. */
  predicate Writes(st: Settings, encode: Value -> Result<nat>, s: State, c: Call)
  {
    && !Hit(s, c)
    && Succeeds(st, encode, c)
    && c.accepted
    && (c.GetCall? ==> Admits(st, encode(c.getFn.value).value))
  }

  // ---------------------------------------------------------------------------
  // One call

  /** Every call bumps exactly one counter of its own label, by one: the hit
      counter when the key is found, the miss counter otherwise. */
  lemma CallBumpsOneCounter(st: Settings, encode: Value -> Result<nat>, s: State, c: Call)
    ensures var r := Step(st, encode, s, c);
      && Count(r.hits, c.operation) == Count(s.hits, c.operation) + (if Hit(s, c) then 1 else 0)
      && Count(r.misses, c.operation) == Count(s.misses, c.operation) + (if Hit(s, c) then 0 else 1)
      && (forall other :: other != c.operation ==>
            Count(r.hits, other) == Count(s.hits, other) && Count(r.misses, other) == Count(s.misses, other))
  {
  }

  /** A hit returns `nil` without running the computation and leaves the store alone. */
  lemma DoWithErrorHit(st: Settings, s: State, key: string, operation: string,
                       cachedFn: Option<Error>, accepted: bool, now: int, written: int)
    requires Lookup(s.entries, key, now).Some?
    ensures var r := DoStep(st, s, key, operation, cachedFn, accepted, now, written);
      r.err == None && !r.invoked && r.state.entries == s.entries
  {
  }

  /** A miss whose computation fails runs it, returns its error unchanged and
      stores nothing. */
  lemma DoWithErrorFailure(st: Settings, s: State, key: string, operation: string,
                           e: Error, accepted: bool, now: int, written: int)
    requires Lookup(s.entries, key, now).None?
    ensures var r := DoStep(st, s, key, operation, Some(e), accepted, now, written);
      r.err == Some(e) && r.invoked && r.state.entries == s.entries
  {
  }

  /** A miss whose computation succeeds runs it, returns `nil`, and writes the
      marker under the key with the average cost and the TTL. */
  lemma DoWithErrorSuccess(st: Settings, s: State, key: string, operation: string,
                           accepted: bool, now: int, written: int)
    requires Lookup(s.entries, key, now).None?
    ensures var r := DoStep(st, s, key, operation, None, accepted, now, written);
      && r.err == None && r.invoked
      && r.state.entries == if accepted
                            then s.entries[key := Entry(Str(DoneRecently), st.averageItemCost, written + st.ttl)]
                            else s.entries
  {
  }

  /** A hit returns the stored value with a `nil` error, without running the
      computation, and leaves the store alone. */
  lemma GetObjectHit(st: Settings, encode: Value -> Result<nat>, s: State, key: string,
                     operation: string, cachedFn: Result<Value>, accepted: bool, now: int,
                     written: int)
    requires key in s.entries && now < s.entries[key].expiry
    ensures var r := GetStep(st, encode, s, key, operation, cachedFn, accepted, now, written);
      r.value == s.entries[key].value && r.err == None && !r.invoked && r.state.entries == s.entries
  {
  }

  /** A miss whose computation fails returns `(nil, err)` with its error and
      stores nothing. */
  lemma GetObjectFailure(st: Settings, encode: Value -> Result<nat>, s: State, key: string,
                         operation: string, e: Error, accepted: bool, now: int,
                         written: int)
    requires Lookup(s.entries, key, now).None?
    ensures var r := GetStep(st, encode, s, key, operation, Err(e), accepted, now, written);
      r.value == Nil && r.err == Some(e) && r.invoked && r.state.entries == s.entries
  {
  }

  /** A miss whose value cannot be encoded returns `nil` (not the computed
      value) with the encoder's error wrapped, and stores nothing. */
  lemma GetObjectMarshalFailure(st: Settings, encode: Value -> Result<nat>, s: State, key: string,
                                operation: string, v: Value, accepted: bool, now: int,
                                written: int)
    requires Lookup(s.entries, key, now).None?
    requires encode(v).Err?
    ensures var r := GetStep(st, encode, s, key, operation, Ok(v), accepted, now, written);
      && r.value == Nil && r.err == Some(Wrapped(MarshalFailedMessage, encode(v).error))
      && r.invoked && r.state.entries == s.entries
  {
  }

  /** A miss whose value can be encoded returns that value with a `nil` error
      whether or not it is stored; it is written under the key with the average
      cost and the TTL exactly when its size passes admission. */
  lemma GetObjectSuccess(st: Settings, encode: Value -> Result<nat>, s: State, key: string,
                         operation: string, v: Value, accepted: bool, now: int,
                         written: int)
    requires Lookup(s.entries, key, now).None?
    requires encode(v).Ok?
    ensures var r := GetStep(st, encode, s, key, operation, Ok(v), accepted, now, written);
      && r.value == v && r.err == None && r.invoked
      && r.state.entries == if Admits(st, encode(v).value) && accepted
                            then s.entries[key := Entry(v, st.averageItemCost, written + st.ttl)]
                            else s.entries
  {
  }

  /** With the minimum at most one past the maximum, the admission test lets
      every size through. */
  lemma AdmissionIsVacuous(st: Settings)
    requires st.minCacheableItemCost <= st.maxCacheableItemCost + 1
    ensures forall size: nat :: Admits(st, size)
  {
  }

  /** The operation label only picks counters: the reply and the store do not
      depend on it. */
  lemma OperationDoesNotSelectEntry(st: Settings, encode: Value -> Result<nat>, s: State, c: Call, other: string)
    ensures Answer(st, encode, s, c) == Answer(st, encode, s, c.(operation := other))
    ensures Step(st, encode, s, c).entries == Step(st, encode, s, c.(operation := other)).entries
  {
  }

  /** The store changes only by the one write of a `Writes` call, and never
      otherwise: failures, rejections and hits leave it as it was. */
  lemma StoreChangesOnlyOnWrite(st: Settings, encode: Value -> Result<nat>, s: State, c: Call)
    ensures Writes(st, encode, s, c) ==>
      Step(st, encode, s, c).entries == s.entries[c.key := Entry(Memo(c), st.averageItemCost, c.written + st.ttl)]
    ensures !Writes(st, encode, s, c) ==> Step(st, encode, s, c).entries == s.entries
  {
  }

  /** A written entry is served for times before the moment the store recorded
      it plus the TTL, and is a miss from then on: a slow computation does not
      shorten the window. */
  lemma ExpiryWindow(st: Settings, encode: Value -> Result<nat>, s: State, c: Call, later: int)
    requires Writes(st, encode, s, c)
    ensures Lookup(Step(st, encode, s, c).entries, c.key, later)
         == if later < c.written + st.ttl then Some(Memo(c)) else None
  {
  }

  /** The charged cost does not decide which entries are served: two caches
      that differ only in the average item cost find the same values at every
      time after the same call. */
  lemma CostDoesNotAffectLookups(st: Settings, cost: int, encode: Value -> Result<nat>, s: State,
                                 c: Call, key: string, later: int)
    ensures Lookup(Step(st, encode, s, c).entries, key, later)
         == Lookup(Step(st.(averageItemCost := cost), encode, s, c).entries, key, later)
  {
  }

  /** And the other way round: the TTL does not decide admission or charging.
      Two caches that differ only in the TTL write on the same calls, hold the
      same keys afterwards, and charge every entry the same cost. */
  lemma TtlDoesNotAffectAdmission(st: Settings, ttl: int, encode: Value -> Result<nat>, s: State, c: Call)
    ensures Writes(st, encode, s, c) == Writes(st.(ttl := ttl), encode, s, c)
    ensures Step(st, encode, s, c).entries.Keys == Step(st.(ttl := ttl), encode, s, c).entries.Keys
    ensures forall key | key in Step(st, encode, s, c).entries ::
      Step(st, encode, s, c).entries[key].cost == Step(st.(ttl := ttl), encode, s, c).entries[key].cost
  {
  }

  // ---------------------------------------------------------------------------
  // Two calls

  /** After a call that writes, a call with the same key inside the TTL window
      is a hit: it does not run its computation, returns `nil` as its error,
      returns the value the first call stored (a `GetObjectWithError` after a
      `DoWithError` sees the marker), and leaves the store alone. */
  lemma HitAfterWrite(st: Settings, encode: Value -> Result<nat>, s: State, first: Call, second: Call)
    requires Writes(st, encode, s, first)
    requires second.key == first.key && second.now < first.written + st.ttl
    ensures var s1 := Step(st, encode, s, first);
      && Hit(s1, second)
      && Answer(st, encode, s1, second) == Reply(if second.GetCall? then Memo(first) else Nil, None, false)
      && Step(st, encode, s1, second).entries == s1.entries
  {
  }

  // ---------------------------------------------------------------------------
  // Sequences of calls

  /** Hits and misses recorded for a label together. */
  function Calls(s: State, operation: string): nat
  {
    Count(s.hits, operation) + Count(s.misses, operation)
  }

  /** The number of calls that carry the label. */
  function Labelled(calls: seq<Call>, operation: string): nat
  {
    if calls == [] then 0
    else (if calls[0].operation == operation then 1 else 0) + Labelled(calls[1..], operation)
  }

  /** Over any run, each label's hits and misses grow by exactly the number of
      calls that carried it. */
  lemma {:induction false} RunCountsEveryCall(st: Settings, encode: Value -> Result<nat>, s: State,
                                              calls: seq<Call>, operation: string)
    ensures Calls(Run(st, encode, s, calls), operation) == Calls(s, operation) + Labelled(calls, operation)
    decreases |calls|
  {
    if calls != [] {
      CallBumpsOneCounter(st, encode, s, calls[0]);
      RunCountsEveryCall(st, encode, Step(st, encode, s, calls[0]), calls[1..], operation);
    }
  }

  /** While the key stays live, every call on it is a hit: the store is left
      alone and only the label's hit counter moves, once per call. */
  lemma {:induction false} HitsWhileLive(st: Settings, encode: Value -> Result<nat>, s: State,
                                         calls: seq<Call>, key: string, operation: string)
    requires forall i :: 0 <= i < |calls| ==>
      calls[i].key == key && calls[i].operation == operation && Lookup(s.entries, key, calls[i].now).Some?
    ensures var r := Run(st, encode, s, calls);
      && r.entries == s.entries
      && Count(r.hits, operation) == Count(s.hits, operation) + |calls|
      && Count(r.misses, operation) == Count(s.misses, operation)
    decreases |calls|
  {
    if calls != [] {
      var s1 := Step(st, encode, s, calls[0]);
      CallBumpsOneCounter(st, encode, s, calls[0]);
      StoreChangesOnlyOnWrite(st, encode, s, calls[0]);
      assert forall i :: 0 <= i < |calls[1..]| ==> calls[1..][i] == calls[i + 1];
      HitsWhileLive(st, encode, s1, calls[1..], key, operation);
    }
  }

  /** N calls on one key with one label, the first a miss that writes and the
      rest inside its TTL window: the miss counter grows by one and the hit
      counter by N - 1. */
  lemma {:induction false} RepeatedCallsAccounting(st: Settings, encode: Value -> Result<nat>, s: State,
                                                   first: Call, rest: seq<Call>)
    requires Writes(st, encode, s, first)
    requires forall i :: 0 <= i < |rest| ==>
      rest[i].key == first.key && rest[i].operation == first.operation && rest[i].now < first.written + st.ttl
    ensures var r := Run(st, encode, s, [first] + rest);
      && Count(r.hits, first.operation) == Count(s.hits, first.operation) + |rest|
      && Count(r.misses, first.operation) == Count(s.misses, first.operation) + 1
  {
    var s1 := Step(st, encode, s, first);
    CallBumpsOneCounter(st, encode, s, first);
    assert ([first] + rest)[0] == first && ([first] + rest)[1..] == rest;
    forall i | 0 <= i < |rest|
      ensures Lookup(s1.entries, first.key, rest[i].now).Some?
    {
      ExpiryWindow(st, encode, s, first, rest[i].now);
    }
    HitsWhileLive(st, encode, s1, rest, first.key, first.operation);
  }

  /** Every run keeps the invariant that each entry is charged the average cost. */
  lemma {:induction false} RunKeepsCharged(st: Settings, encode: Value -> Result<nat>, s: State, calls: seq<Call>)
    requires Charged(s.entries, st.averageItemCost)
    ensures Charged(Run(st, encode, s, calls).entries, st.averageItemCost)
    decreases |calls|
  {
    if calls != [] {
      StoreChangesOnlyOnWrite(st, encode, s, calls[0]);
      RunKeepsCharged(st, encode, Step(st, encode, s, calls[0]), calls[1..]);
    }
  }

  /** The values held in the store. */
  ghost function ValuesOf(entries: map<string, Entry>): set<Value>
  {
    set key | key in entries :: entries[key].value
  }

  /** The values the calls could have put in the store: the marker for every
      `DoWithError`, the computed value for every `GetObjectWithError` whose
      computation succeeded. */
  function Computed(calls: seq<Call>): set<Value>
  {
    if calls == [] then {}
    else (if calls[0].DoCall? || calls[0].getFn.Ok? then {Memo(calls[0])} else {}) + Computed(calls[1..])
  }

  /** Over any run, the store only ever holds values it started with or values
      some call computed: the cache never makes up a value. */
  lemma {:induction false} StoredValuesComputed(st: Settings, encode: Value -> Result<nat>, s: State,
                                                calls: seq<Call>)
    ensures ValuesOf(Run(st, encode, s, calls).entries) <= ValuesOf(s.entries) + Computed(calls)
    decreases |calls|
  {
    if calls != [] {
      var c := calls[0];
      var s1 := Step(st, encode, s, c);
      StoreChangesOnlyOnWrite(st, encode, s, c);
      assert ValuesOf(s1.entries) <= ValuesOf(s.entries) + Computed([c]);
      StoredValuesComputed(st, encode, s1, calls[1..]);
    }
  }

  /** Running `calls` and then `c` is running `calls + [c]`. */
  lemma {:induction false} RunAppend(st: Settings, encode: Value -> Result<nat>, s: State,
                                     calls: seq<Call>, c: Call)
    ensures Run(st, encode, s, calls + [c]) == Step(st, encode, Run(st, encode, s, calls), c)
    decreases |calls|
  {
    if calls == [] {
      assert [] + [c] == [c] && [c][1..] == [];
    } else {
      assert (calls + [c])[0] == calls[0] && (calls + [c])[1..] == calls[1..] + [c];
      RunAppend(st, encode, Step(st, encode, s, calls[0]), calls[1..], c);
    }
  }

  /** A failure is never memoized: starting from a store where `key` is absent
      at time `t`, as long as no call on `key` succeeds, every call on `key`
      misses and runs its computation, and `key` stays absent at every time
      from `t` on. */
  lemma {:induction false} FailureNotMemoized(st: Settings, encode: Value -> Result<nat>, s: State,
                                              calls: seq<Call>, key: string, t: int)
    requires Lookup(s.entries, key, t).None?
    requires forall i :: 0 <= i < |calls| && calls[i].key == key ==> !Succeeds(st, encode, calls[i])
    requires forall i :: 0 <= i < |calls| ==> t <= calls[i].now
    ensures forall i :: 0 <= i < |calls| && calls[i].key == key ==>
      Answer(st, encode, Run(st, encode, s, calls[..i]), calls[i]).invoked
    ensures forall later :: t <= later ==> Lookup(Run(st, encode, s, calls).entries, key, later).None?
    decreases |calls|
  {
    if calls != [] {
      var n := |calls| - 1;
      var prefix := calls[..n];
      assert calls == prefix + [calls[n]];
      assert calls[..n] == prefix;
      assert forall i :: 0 <= i < n ==> calls[..i] == prefix[..i];
      FailureNotMemoized(st, encode, s, prefix, key, t);
      RunAppend(st, encode, s, prefix, calls[n]);
      var before := Run(st, encode, s, prefix);
      StoreChangesOnlyOnWrite(st, encode, before, calls[n]);
      forall later | t <= later
        ensures Lookup(Run(st, encode, s, calls).entries, key, later).None?
      {
        assert Lookup(before.entries, key, later).None?;
      }
    }
  }

  /** The index of the last call of `calls` that writes under `key`, each call
      judged in the state the run has reached when it is made; -1 when no call
      does. */
  function LastWriter(st: Settings, encode: Value -> Result<nat>, s: State, calls: seq<Call>,
                      key: string): (j: int)
    ensures -1 <= j < |calls|
    ensures 0 <= j ==> calls[j].key == key && Writes(st, encode, Run(st, encode, s, calls[..j]), calls[j])
    ensures forall i :: j < i < |calls| ==>
      !(calls[i].key == key && Writes(st, encode, Run(st, encode, s, calls[..i]), calls[i]))
    decreases |calls|
  {
    if calls == [] then -1
    else
      var n := |calls| - 1;
      if calls[n].key == key && Writes(st, encode, Run(st, encode, s, calls[..n]), calls[n]) then n
      else
        assert forall i :: 0 <= i <= n ==> calls[..n][..i] == calls[..i];
        LastWriter(st, encode, s, calls[..n], key)
  }

  /** After any run, the entry under `key` is the one its last writing call put
      there (that call's value, the average cost, that call's time plus the
      TTL); when no call wrote it, it is the entry the store started with. */
  lemma {:induction false} EntryIsLatestWrite(st: Settings, encode: Value -> Result<nat>, s: State,
                                              calls: seq<Call>, key: string)
    ensures var entries := Run(st, encode, s, calls).entries;
      var j := LastWriter(st, encode, s, calls, key);
      if 0 <= j then
        key in entries && entries[key] == Entry(Memo(calls[j]), st.averageItemCost, calls[j].written + st.ttl)
      else
        (key in entries <==> key in s.entries) && (key in s.entries ==> entries[key] == s.entries[key])
    decreases |calls|
  {
    if calls != [] {
      var n := |calls| - 1;
      var prefix := calls[..n];
      assert calls == prefix + [calls[n]];
      RunAppend(st, encode, s, prefix, calls[n]);
      StoreChangesOnlyOnWrite(st, encode, Run(st, encode, s, prefix), calls[n]);
      EntryIsLatestWrite(st, encode, s, prefix, key);
    }
  }

  /** Value fidelity: a `GetObjectWithError` hit after any run returns the value
      the last writing call on its key stored, or, when no call of the run
      wrote that key, the value the store started with. */
  lemma HitReturnsLatestWrite(st: Settings, encode: Value -> Result<nat>, s: State, calls: seq<Call>, c: Call)
    requires c.GetCall?
    requires Hit(Run(st, encode, s, calls), c)
    ensures var j := LastWriter(st, encode, s, calls, c.key);
      var v := Answer(st, encode, Run(st, encode, s, calls), c).value;
      if 0 <= j then v == Memo(calls[j]) && c.now < calls[j].written + st.ttl
      else c.key in s.entries && v == s.entries[c.key].value
  {
    EntryIsLatestWrite(st, encode, s, calls, c.key);
  }

  /** The scenario of a cache with 100 items of cost 1 and a one-second TTL
      (in nanoseconds): a value computed on the first call is served by the
      second without running the computation, and the computation runs again
      once the TTL has passed. */
  lemma ExampleScenario(encode: Value -> Result<nat>)
    requires encode(Int(42)) == Ok(2)
    ensures var st := SettingsOf(Config(100, 1, 0, 0, 1_000_000_000));
      var s0 := State(map[], map[], map[]);
      var c1 := GetCall("k1", "op", Ok(Int(42)), true, 0, 0);
      var c2 := GetCall("k1", "op", Ok(Int(42)), true, 0, 0);
      var c3 := GetCall("k1", "op", Ok(Int(42)), true, 1_100_000_000, 1_100_000_000);
      var s1 := Step(st, encode, s0, c1);
      var s2 := Step(st, encode, s1, c2);
      && Answer(st, encode, s0, c1) == Reply(Int(42), None, true)
      && Count(s1.misses, "op") == 1 && Count(s1.hits, "op") == 0
      && Answer(st, encode, s1, c2) == Reply(Int(42), None, false)
      && Count(s2.misses, "op") == 1 && Count(s2.hits, "op") == 1
      && Answer(st, encode, s2, c3).invoked
      && Count(Step(st, encode, s2, c3).misses, "op") == 2
  {
  }

  /** The TTL counts from the write, not from the lookup: with a one-second TTL,
      a `DoWithError` whose computation starts at 0 s and returns at 2 s leaves
      a marker that a call at 2.5 s still finds, and that expires at 3 s. */
  lemma SlowComputationKeepsFullWindow(encode: Value -> Result<nat>)
    ensures var st := Settings(1, 0, 0, 1_000_000_000);
      var s0 := State(map[], map[], map[]);
      var c1 := DoCall("k", "op", None, true, 0, 2_000_000_000);
      var c2 := DoCall("k", "op", None, true, 2_500_000_000, 2_500_000_000);
      var c3 := DoCall("k", "op", None, true, 3_000_000_000, 3_000_000_000);
      var s1 := Step(st, encode, s0, c1);
      && Answer(st, encode, s0, c1).invoked
      && Answer(st, encode, s1, c2) == Reply(Nil, None, false)
      && Answer(st, encode, Step(st, encode, s1, c2), c3).invoked
  {
  }
}
