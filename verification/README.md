# FastLock in Dafny

FastLock is an Android benchmark of four ways to guard a shared reference:
no guard at all (`NullTest`), a `synchronized` block, double-checked locking
and a compare-and-set spin loop. A run starts up to 100 worker threads; each
worker repeatedly calls every strategy, in shuffled order, once with the
reference the strategy started with (the "read") and once with a fresh one
(the "write"), timing both calls. Each strategy's probe (`TestOne`) sums the
timings, and when all workers are done the harness reports one record per
strategy with the mean read and write times, sorted by read time. The
repository also holds two lazily initialising providers built on the same two
non-trivial idioms.

This project models, as pure functions over immutable data:

- `runtime.dfy` (`Runtime`): object references as handles compared by
  identity, nullable values, the two exceptions the code can raise, and
  `AtomicReference.compareAndSet`.
- `model.dfy` (`Model`): the `TestType` enumeration, the id-to-name table
  and the `Results` record with its primary key.
- `strategies.dfy` (`Strategies`): the four `get` implementations. Each call
  is one atomic step; the windows in which another thread can write the cell
  are explicit inputs (`racer`, `racers`).
- `probe.dfy` (`Probe`): `TestOne`, its `runOnce`, its synchronized `update`
  and its `results` snapshot.
- `harness.dfy` (`Harness`): `LockTest`: the thread-count clamp, the number
  of iterations each worker makes, the aggregation of all workers' calls into
  the probes, and `finishTest`'s sorted report. A run is given by the calls
  each worker made; the probes see them in any interleaving that contains
  exactly those calls.
- `providers.dfy` (`Providers`): `DoubleCheckedProvider` and `SpinProvider`
  as memoising steps from a cache to a result and a new cache.

Three behaviours of the code are easy to misread, and the model keeps each as written:

- `NullTest.get` returns the reference it was built with, not its argument.
- Each worker's loop `for (i in 0..iterations)` runs over a closed range, so
  it makes `ITERATIONS / nThreads + 1` iterations, not `ITERATIONS / nThreads`.
- `DoubleCheckTest.get` re-tests the snapshot `v1` inside the lock, not the
  value `v2` read there; that inner `return v2` can never run. The model
  keeps the code as written and proves the result is the same as a `v2`
  re-test would give.

## Model

| member | source | states |
|---|---|---|
| Model.TypeOfId | app/src/main/java/net/callmeike/android/fastlock/model/Results.kt:27-32 | Ids are positions in declaration order: an id names a type exactly when it is 0 to 3, and the type it names carries that id. |
| Model.ToMap | app/src/main/java/net/callmeike/android/fastlock/model/Results.kt:35 | Kotlin `toMap` of a pair list: the keys are exactly the keys of the pairs, and a key whose last pair is at index i maps to that pair's value. |
| Model.TestTypeToNameNamesEachType | app/src/main/java/net/callmeike/android/fastlock/model/Results.kt:27-35 | `TestTypeToName` is defined on exactly the ids 0 to 3 and maps each type's id to its display name. |
| Model.TestTypeToNameIsTheTypeTable | app/src/main/java/net/callmeike/android/fastlock/model/Results.kt:28-35 | Written out, `TestTypeToName` is {0: "Null", 1: "Synchronized", 2: "Double Checked", 3: "Spin"}. |
| Strategies.Get | app/src/main/java/net/callmeike/android/fastlock/test/LockTest.kt:22-81 | `NullTest.get` returns the held reference and changes nothing; the other three return their argument and hold it afterwards; no `get` changes the kind; passing the held reference changes nothing and returns it. |
| Strategies.DoubleCheckRacedGet | app/src/main/java/net/callmeike/android/fastlock/test/LockTest.kt:49-62 | Even when another thread stores a reference between the unlocked read and the lock, `DoubleCheckTest.get` returns its argument and leaves it in the cell; it changes nothing when the cell already holds the argument. |
| Strategies.StaleInnerCheckIsHarmless | app/src/main/java/net/callmeike/android/fastlock/test/LockTest.kt:54-61 | Once the fast path fails, the locked block returns the argument and stores it whatever it reads; its stale re-test of `v1` gives the same result and next state as re-testing `v2` would. |
| Strategies.SpinLoop | app/src/main/java/net/callmeike/android/fastlock/test/LockTest.kt:70-80 | The spin loop returns its argument and leaves it in the cell; it fails at most once per window in which another thread stored a reference, so with no interference it never fails; if the cell already holds the argument it returns at once. |
| Strategies.SpinSwapFailsOnlyOnInterference | app/src/main/java/net/callmeike/android/fastlock/test/LockTest.kt:72-78 | A `compareAndSet` of the loop fails exactly when another thread stored a different reference between the loop's read and its swap. |
| Strategies.HeldValueIsInitialOrArgument | app/src/main/java/net/callmeike/android/fastlock/test/LockTest.kt:22-81 | After any sequence of `get` calls the cell holds the initial reference or one of the arguments; `NullTest` keeps its initial reference; the others hold the last argument. |
| Strategies.ReadingTheHeldValueChangesNothing | app/src/main/java/net/callmeike/android/fastlock/test/LockTest.kt:22-81 | Any number of `get` calls that pass the held reference leave every strategy unchanged. |
| Probe.UpdateAddsOneSample | app/src/main/java/net/callmeike/android/fastlock/test/TestHarness.kt:65-70 | `update` adds one to the count and adds each duration to its total. |
| Probe.NewTestOne | app/src/main/java/net/callmeike/android/fastlock/test/TestHarness.kt:37-47 | A new `TestOne` has empty totals, a null `value`, and read and write instances that are both of the requested kind and both built on the one fresh `initVal`. |
| Probe.RunOnce | app/src/main/java/net/callmeike/android/fastlock/test/TestHarness.kt:52-63 | `runOnce` adds one sample with the two durations; the read instance is never changed; the write instance ends up holding the fresh reference unless it is a `NullTest`; `value` is the result of whichever call ran second. |
| Probe.RunOnceOrderIsInvisibleToTheAggregate | app/src/main/java/net/callmeike/android/fastlock/test/TestHarness.kt:57-62 | The shuffled order of the two calls decides only `value`: instances, totals and allocation are the same either way. |
| Probe.DivisionIsTruncatedMean | app/src/main/java/net/callmeike/android/fastlock/test/TestHarness.kt:49-50 | `total / n` is the largest whole number whose n-fold does not exceed `total`. |
| Probe.Snapshot | app/src/main/java/net/callmeike/android/fastlock/test/TestHarness.kt:49-50 | `results(ts)` throws `ArithmeticException` exactly when no sample was taken; otherwise the record carries `ts`, the type id, the thread count and the truncated mean read and write times. |
| Probe.TruncatedMeanIsUnique | app/src/main/java/net/callmeike/android/fastlock/test/TestHarness.kt:49-50 | The truncated mean of a total is unique, so a record's averages are fixed by the probe's totals. |
| Harness.ClampThreads | app/src/main/java/net/callmeike/android/fastlock/test/TestHarness.kt:75 | The thread count is the request when it is present and between 1 and 100, and 1 otherwise. |
| Harness.ClampIsIdempotent | app/src/main/java/net/callmeike/android/fastlock/test/TestHarness.kt:75 | Clamping an effective thread count leaves it unchanged. |
| Harness.WorkerIterations | app/src/main/java/net/callmeike/android/fastlock/test/TestHarness.kt:96-101 | Each worker loops over the closed range `0..ITERATIONS / nThreads`, one iteration more than its share. |
| Harness.WorkersOverrunTheBudget | app/src/main/java/net/callmeike/android/fastlock/test/TestHarness.kt:96-105 | Together the workers make more than `ITERATIONS` outer iterations, and at most `nThreads` more. |
| Harness.ProbeIterations | app/src/main/java/net/callmeike/android/fastlock/test/TestHarness.kt:90-105 | Each probe receives `nThreads` times the per-worker iteration count of `runOnce` calls, which lies in (ITERATIONS, ITERATIONS + nThreads]. |
| Harness.ShufflesRunEachProbeOnce | app/src/main/java/net/callmeike/android/fastlock/test/TestHarness.kt:101-105 | Shuffled outer iterations run every probe once each, so a probe sees as many calls as there were iterations. |
| Harness.WorkersRunEachProbe | app/src/main/java/net/callmeike/android/fastlock/test/TestHarness.kt:90-105 | Over all workers, each probe sees the number of workers times the per-worker iteration count. |
| Harness.TallyPermutation | app/src/main/java/net/callmeike/android/fastlock/test/TestHarness.kt:65-70 | The totals do not depend on the order of the synchronized updates: any reordering of the same samples gives the same aggregate. |
| Harness.NewLockTest | app/src/main/java/net/callmeike/android/fastlock/test/TestHarness.kt:74-88 | A new `LockTest` holds the clamped thread count and four freshly constructed probes, one per type, in type order. |
| Harness.Perform | app/src/main/java/net/callmeike/android/fastlock/test/TestHarness.kt:102-103 | One `runOnce` advances the probe it names exactly as `RunOnce` does, which adds its sample to that probe's totals, and leaves the other three probes untouched. |
| Harness.ExecuteTallies | app/src/main/java/net/callmeike/android/fastlock/test/TestHarness.kt:101-105 | After a sequence of calls, each probe's totals have grown by exactly the samples addressed to it. |
| Harness.RunCounts | app/src/main/java/net/callmeike/android/fastlock/test/TestHarness.kt:90-107 | After a complete run, whatever the interleaving, each probe holds exactly its workers' samples, `ProbeIterations(nThreads)` of them. |
| Harness.Snapshots | app/src/main/java/net/callmeike/android/fastlock/test/TestHarness.kt:112 | Records are built for all probes, in order, exactly when every probe has a sample; each equals that probe's `results(ts)`. |
| Harness.InsertByRead | app/src/main/java/net/callmeike/android/fastlock/test/TestHarness.kt:112 | Insertion keeps a list sorted by read time, grows it by one and puts the new record or the old head first. |
| Harness.InsertByReadAddsOneRecord | app/src/main/java/net/callmeike/android/fastlock/test/TestHarness.kt:112 | Insertion adds the one new record and loses none. |
| Harness.SortByRead | app/src/main/java/net/callmeike/android/fastlock/test/TestHarness.kt:112 | `sortedBy { it.tRead }`: the result is in ascending read time and is a permutation of the input. |
| Harness.DistinctKeysSurvivePermutation | app/src/main/java/net/callmeike/android/fastlock/test/TestHarness.kt:112 | Reordering records whose keys are distinct keeps their keys distinct. |
| Harness.SnapshotKeysAreDistinct | app/src/main/java/net/callmeike/android/fastlock/model/Results.kt:38-43 | The four records built at one timestamp carry that `ts`, the run's thread count and the type ids 0 to 3 in order, so no two share the primary key `(type, ts)`. |
| Harness.FinishTest | app/src/main/java/net/callmeike/android/fastlock/test/TestHarness.kt:110-112 | `finishTest` throws `ArithmeticException` exactly when some probe is empty; otherwise it reports four records with distinct keys, all with the same `ts` and thread count, sorted by read time, a permutation of the probes' records. |
| Harness.CompletedRunReport | app/src/main/java/net/callmeike/android/fastlock/test/TestHarness.kt:90-112 | A complete run always yields a report: four records sorted by read time with distinct keys, where each type's record holds its samples' total read and write times divided by `ProbeIterations(nThreads)`. |
| Providers.DoubleCheckedProviderGet | app/src/main/java/net/callmeike/android/fastlock/example/Provider.kt:32-41 | With a set cache `get` returns it without calling the provider. With an empty cache, a reference another thread stored before the lock is returned and kept without a provider call; otherwise the provider is called once and its value stored. If that value is null, `value!!` returns a reference another thread stored before the final read, and throws `NullPointerException` when there is none; it throws in no other case. |
| Providers.SpinProviderGet | app/src/main/java/net/callmeike/android/fastlock/example/Provider.kt:47-58 | With a set cache `get` returns it without calling the provider; otherwise it calls the provider exactly once, returns what the cache then holds, which is the racing thread's reference if one was stored first, else the provider's value. |
| Providers.SpinProviderGetUninterrupted | app/src/main/java/net/callmeike/android/fastlock/example/Provider.kt:53-55 | With an empty cache and no interference the swap from null succeeds and the provider's value is both returned and cached, after one provider call. |
| Providers.DoubleCheckedProviderRun | app/src/main/java/net/callmeike/android/fastlock/example/Provider.kt:32-41 | Successive `get` calls call the provider at most once each and never change a set cache. |
| Providers.SpinProviderRun | app/src/main/java/net/callmeike/android/fastlock/example/Provider.kt:47-58 | Successive `get` calls call the provider at most once each and never change a set cache. |
| Providers.DoubleCheckedIsIdempotentOnceSet | app/src/main/java/net/callmeike/android/fastlock/example/Provider.kt:33-40 | Once the cache is set, every later `get` returns it without calling the provider, and the cache stays as it is. |
| Providers.SpinIsIdempotentOnceSet | app/src/main/java/net/callmeike/android/fastlock/example/Provider.kt:48-51 | Once the cache is set, every later `get` returns it without calling the provider, and the cache stays as it is. |
| Providers.DoubleCheckedValueIsFixed | app/src/main/java/net/callmeike/android/fastlock/example/Provider.kt:32-41 | After one `get` has returned a value, every later `get` returns that same value. |
| Providers.SpinValueIsFixed | app/src/main/java/net/callmeike/android/fastlock/example/Provider.kt:47-58 | After one `get` has returned a non-null value, every later `get` returns that same value. |
| Providers.ProvidersAgreeWithoutRaces | app/src/main/java/net/callmeike/android/fastlock/example/Provider.kt:27-58 | Without racing threads the two providers call the provider equally often and keep the same cache; the double-checked one throws exactly where the spin one returns null, and otherwise they return the same value. |

## Left out

- Threads, `CyclicBarrier`s, `@Volatile` and memory visibility are not modelled: each `get`, `runOnce` and `update` is one atomic step, and a run's interleaving is only assumed to contain exactly the calls the workers made.
- Timing is an input: the durations `measureNanoTime` reports are the sample's `tRead` and `tWrite`, and the `System.currentTimeMillis()` timestamp is the `ts` argument.
- `shuffled()` is arbitrary: the order of the two calls in `runOnce` is the `readFirst` input, and a worker's outer iteration is any ordering of the four probes.
- The Android parts are out of scope: `Handler`, the results listener, `StoreResults` and the Room database, the UI, `MainActivity` and the application class.
- `Long` and `Int` arithmetic is unbounded: the totals cannot overflow in the model.
- `Object()` is a per-probe counter of fresh handles; handles are only compared within one probe.
- `TestOne.value` is written by all workers without synchronization; the model keeps only the value of the last atomic `runOnce`.
- Strategies.Get: is the uninterrupted `get`; interference inside a strategy is modelled only by `DoubleCheckRacedGet` and `SpinLoop`, and `RunOnce` uses the uninterrupted steps.
- Harness.SortByRead: does not state that Kotlin's `sortedBy` is stable (records with equal read times keep their order).
- Harness.FinishTest: does not post the results to the listener or store them.
- Providers.SpinProviderGet: takes one provider value per call; a second pass of the loop never calls the provider, since the swap only fails after another thread set the cache.
- Providers.SpinProviderGet: the underlying `provider.get()` always returns (`supplied`); a provider that throws, whose exception `get` passes on leaving the cache as it was, is not modelled.
- Providers.DoubleCheckedProviderGet: the underlying `provider.get()` always returns (`supplied`); a provider that throws, whose exception `get` passes on leaving the cache as it was, is not modelled.
- Providers.DoubleCheckedProviderGet: a racing store is of a non-null reference; a racing thread that stores null leaves the cache as it was, which the model treats as no store.
