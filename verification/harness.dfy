/** `LockTest` of `test/TestHarness.kt`: the thread count, the work each worker
    does, the aggregation of every worker's samples into the four probes, and
    the sorted report built once all workers are done.

    Threads and barriers are not modelled. A run is described by what the
    workers did: `workers[w][i]` is worker `w`'s `i`-th outer iteration, the
    four `runOnce` calls it made in its shuffled order, each with the two
    durations it measured. The probes see those calls one at a time in some
    interleaving; all that is assumed of the interleaving `g` is that it holds
    exactly the calls the workers made. */
module Harness {
  import opened Runtime
  import opened Model
  import opened Strategies
  import opened Probe

  /** The total iteration budget of a run. */
  const ITERATIONS: int := 300000

  /** The largest accepted thread count. */
  const MAX_THREADS: int := 100

  /** The effective thread count: an absent, non-positive or too large
      request falls back to one thread. */
  function ClampThreads(threads: Option<int>): (n: int)
    ensures 1 <= n <= MAX_THREADS
    ensures threads.Some? && 1 <= threads.value <= MAX_THREADS ==> n == threads.value
    ensures !(threads.Some? && 1 <= threads.value <= MAX_THREADS) ==> n == 1
  {
    if threads.None? then 1
    else if threads.value <= 0 || threads.value > MAX_THREADS then 1
    else threads.value
  }

  /** Clamping is idempotent: a clamped count is accepted as it is, so every
      invalid request runs exactly like a request for one thread. */
  lemma ClampIsIdempotent(threads: Option<int>)
    ensures ClampThreads(Some(ClampThreads(threads))) == ClampThreads(threads)
  {
  }

  /** How many values Kotlin's closed range `lo..hi` visits. */
  function RangeLength(lo: int, hi: int): (k: nat)
    ensures hi < lo ==> k == 0
    ensures lo <= hi ==> lo + k - 1 == hi
  {
    if hi < lo then 0 else hi - lo + 1
  }

  /** The outer iterations one worker makes: `for (i in 0..iterations)` with
      `iterations = ITERATIONS / nThreads`. The range includes its upper end,
      so every worker makes one iteration more than its share. */
  function WorkerIterations(nThreads: int): (k: nat)
    requires 1 <= nThreads
    ensures k == ITERATIONS / nThreads + 1
  {
    RangeLength(0, ITERATIONS / nThreads)
  }

  /** Because of the extra iteration the workers together always exceed the
      budget, by at most one iteration each. */
  lemma WorkersOverrunTheBudget(nThreads: int)
    requires 1 <= nThreads
    ensures ITERATIONS < nThreads * WorkerIterations(nThreads) <= ITERATIONS + nThreads
  {
  }

  /** How many `runOnce` calls each probe receives in a run: every worker
      calls every probe once per outer iteration. */
  function ProbeIterations(nThreads: int): (c: nat)
    requires 1 <= nThreads
    ensures c == nThreads * WorkerIterations(nThreads)
    ensures ITERATIONS < c <= ITERATIONS + nThreads
  {
    WorkersOverrunTheBudget(nThreads);
    nThreads * WorkerIterations(nThreads)
  }

  /** One `runOnce` call as a worker made it: which probe, which of the two
      calls came first, and the two measured durations. */
  datatype Sample = Sample(test: TestType, readFirst: bool, tRead: nat, tWrite: nat)

  /** What a sample adds to the aggregate of probe `t`. */
  function Contribution(s: Sample, t: TestType): Aggregate
  {
    if s.test == t then Single(s.tRead, s.tWrite) else Empty
  }

  /** The aggregate of the samples of probe `t` in `g`. */
  function Tally(g: seq<Sample>, t: TestType): Aggregate
  {
    if g == [] then Empty else Contribution(g[0], t).Plus(Tally(g[1..], t))
  }

  lemma {:induction false} TallyAppend(a: seq<Sample>, b: seq<Sample>, t: TestType)
    ensures Tally(a + b, t) == Tally(a, t).Plus(Tally(b, t))
    decreases |a|
  {
    if a == [] {
      assert a + b == b;
    } else {
      assert (a + b)[0] == a[0];
      assert (a + b)[1..] == a[1..] + b;
      TallyAppend(a[1..], b, t);
    }
  }

  /** Taking the `k`-th sample out of a trace takes its contribution out of
      the aggregate. */
  lemma TallyWithout(h: seq<Sample>, k: nat, t: TestType)
    requires k < |h|
    ensures Tally(h, t) == Contribution(h[k], t).Plus(Tally(h[..k] + h[k + 1..], t))
  {
    var tail := [h[k]] + h[k + 1..];
    assert h == h[..k] + tail;
    assert tail[0] == h[k] && tail[1..] == h[k + 1..];
    TallyAppend(h[..k], tail, t);
    TallyAppend(h[..k], h[k + 1..], t);
  }

  lemma MultisetWithout<T>(h: seq<T>, k: nat)
    requires k < |h|
    ensures multiset(h[..k] + h[k + 1..]) == multiset(h) - multiset{h[k]}
  {
    assert h == h[..k] + [h[k]] + h[k + 1..];
  }

  lemma PermutationWithout<T>(g: seq<T>, h: seq<T>, k: nat)
    requires multiset(g) == multiset(h)
    requires g != [] && k < |h| && h[k] == g[0]
    ensures multiset(g[1..]) == multiset(h[..k] + h[k + 1..])
  {
    assert g == [g[0]] + g[1..];
    MultisetWithout(h, k);
  }

  /** The aggregate does not depend on the order of the samples: any
      interleaving of the same calls yields the same totals. */
  lemma {:induction false} TallyPermutation(g: seq<Sample>, h: seq<Sample>, t: TestType)
    requires multiset(g) == multiset(h)
    ensures Tally(g, t) == Tally(h, t)
    decreases |g|
  {
    if g == [] {
      assert |h| == |multiset(h)| == 0;
    } else {
      var x := g[0];
      assert x in multiset(h);
      var k :| 0 <= k < |h| && h[k] == x;
      var rest := h[..k] + h[k + 1..];
      PermutationWithout(g, h, k);
      TallyPermutation(g[1..], rest, t);
      TallyWithout(h, k, t);
    }
  }

  /** One outer iteration of a worker: `tests.shuffled()` runs each of the
      four probes exactly once, in any order. */
  ghost predicate IsShuffle(it: seq<Sample>)
  {
    |it| == |AllTypes| && forall t: TestType :: Tally(it, t).iterations == 1
  }

  function Concat(xs: seq<seq<Sample>>): seq<Sample>
  {
    if xs == [] then [] else xs[0] + Concat(xs[1..])
  }

  /** Every call every worker made, worker by worker. */
  function AllWork(workers: seq<seq<seq<Sample>>>): seq<Sample>
  {
    if workers == [] then [] else Concat(workers[0]) + AllWork(workers[1..])
  }

  lemma {:induction false} ShufflesRunEachProbeOnce(its: seq<seq<Sample>>, t: TestType)
    requires forall i | 0 <= i < |its| :: IsShuffle(its[i])
    ensures Tally(Concat(its), t).iterations == |its|
    decreases |its|
  {
    if its != [] {
      TallyAppend(its[0], Concat(its[1..]), t);
      ShufflesRunEachProbeOnce(its[1..], t);
    }
  }

  /** A worker's calls: `WorkerIterations` outer iterations, each a shuffle. */
  ghost predicate IsWorkerTrace(nThreads: int, its: seq<seq<Sample>>)
    requires 1 <= nThreads
  {
    |its| == WorkerIterations(nThreads) && forall i | 0 <= i < |its| :: IsShuffle(its[i])
  }

  lemma {:induction false} WorkersRunEachProbe(nThreads: int, workers: seq<seq<seq<Sample>>>, t: TestType)
    requires 1 <= nThreads
    requires forall w | 0 <= w < |workers| :: IsWorkerTrace(nThreads, workers[w])
    ensures Tally(AllWork(workers), t).iterations == |workers| * WorkerIterations(nThreads)
    decreases |workers|
  {
    if workers != [] {
      var k := WorkerIterations(nThreads);
      var rest := workers[1..];
      ShufflesRunEachProbeOnce(workers[0], t);
      WorkersRunEachProbe(nThreads, rest, t);
      TallyAppend(Concat(workers[0]), AllWork(rest), t);
      OneMoreTimes(|rest|, k);
    }
  }

  lemma OneMoreTimes(n: nat, k: nat)
    ensures (n + 1) * k == k + n * k
  {
  }

  /** `g` is a complete run with `nThreads` workers: `runTest` starts one
      worker per value of `0..(nThreads - 1)`, each does its share of
      shuffled iterations, and `g` interleaves exactly their calls. */
  ghost predicate IsRunTrace(nThreads: int, workers: seq<seq<seq<Sample>>>, g: seq<Sample>)
  {
    && 1 <= nThreads
    && |workers| == RangeLength(0, nThreads - 1)
    && (forall w | 0 <= w < |workers| :: IsWorkerTrace(nThreads, workers[w]))
    && multiset(g) == multiset(AllWork(workers))
  }

  /** A `LockTest`: the effective thread count and the four probes, in the
      order the source lists them. */
  datatype LockTest = LockTest(nThreads: int, tests: seq<TestOne>)
  {
    ghost predicate Valid()
    {
      && 1 <= nThreads <= MAX_THREADS
      && |tests| == |AllTypes|
      && forall i | 0 <= i < |tests| ::
           tests[i].Valid() && tests[i].Kind() == AllTypes[i] && tests[i].nThreads == nThreads
    }
  }

  /** The constructor: clamp the request and build one probe per test type. */
  function NewLockTest(threads: Option<int>): (b: LockTest)
    ensures b.Valid()
    ensures b.nThreads == ClampThreads(threads)
    ensures forall i | 0 <= i < |b.tests| :: b.tests[i].agg == Empty
    ensures forall i | 0 <= i < |AllTypes| :: b.tests[i] == NewTestOne(b.nThreads, AllTypes[i])
  {
    var n := ClampThreads(threads);
    LockTest(n, [NewTestOne(n, Null), NewTestOne(n, Synchronized), NewTestOne(n, DoubleChecked), NewTestOne(n, Spin)])
  }

  /** One sampled `runOnce`, as an atomic step on the probe it names. */
  function Perform(b: LockTest, s: Sample): (r: LockTest)
    requires b.Valid()
    ensures r.Valid() && r.nThreads == b.nThreads
    ensures forall i | 0 <= i < |AllTypes| :: r.tests[i].agg == b.tests[i].agg.Plus(Contribution(s, AllTypes[i]))
    ensures r.tests[s.test.Id()] == RunOnce(b.tests[s.test.Id()], s.readFirst, s.tRead, s.tWrite)
    ensures forall i | 0 <= i < |AllTypes| && i != s.test.Id() :: r.tests[i] == b.tests[i]
  {
    var i := s.test.Id();
    b.(tests := b.tests[i := RunOnce(b.tests[i], s.readFirst, s.tRead, s.tWrite)])
  }

  /** The probes after the calls of `g`, one at a time. */
  function Execute(b: LockTest, g: seq<Sample>): (r: LockTest)
    requires b.Valid()
    ensures r.Valid() && r.nThreads == b.nThreads
    decreases |g|
  {
    if g == [] then b else Execute(Perform(b, g[0]), g[1..])
  }

  /** Each probe's aggregate grows by exactly the samples addressed to it. */
  lemma {:induction false} ExecuteTallies(b: LockTest, g: seq<Sample>, i: nat)
    requires b.Valid() && i < |AllTypes|
    ensures Execute(b, g).tests[i].agg == b.tests[i].agg.Plus(Tally(g, AllTypes[i]))
    decreases |g|
  {
    if g != [] {
      var t := AllTypes[i];
      var b' := Perform(b, g[0]);
      ExecuteTallies(b', g[1..], i);
      var c, rest := Contribution(g[0], t), Tally(g[1..], t);
      assert b'.tests[i].agg == b.tests[i].agg.Plus(c);
      assert Tally(g, t) == c.Plus(rest);
      PlusIsAssociative(b.tests[i].agg, c, rest);
    }
  }

  /** After a complete run the probe of `AllTypes[i]` holds exactly the
      samples addressed to it, `nThreads` times the per-worker iterations of
      them whatever the interleaving, so it is not empty. */
  lemma {:induction false} RunCounts(threads: Option<int>, workers: seq<seq<seq<Sample>>>, g: seq<Sample>, i: nat)
    requires IsRunTrace(ClampThreads(threads), workers, g)
    requires i < |AllTypes|
    ensures Execute(NewLockTest(threads), g).tests[i].agg == Tally(g, AllTypes[i])
    ensures Tally(g, AllTypes[i]).iterations == ProbeIterations(ClampThreads(threads))
  {
    var n := ClampThreads(threads);
    var t := AllTypes[i];
    var b0 := NewLockTest(threads);
    TallyPermutation(g, AllWork(workers), t);
    WorkersRunEachProbe(n, workers, t);
    ExecuteTallies(b0, g, i);
    var tally := Tally(g, t);
    assert b0.tests[i].agg == Empty;
    assert Execute(b0, g).tests[i].agg == Empty.Plus(tally);
    EmptyIsNeutral(tally);
  }

  /** `results(ts)` of every probe, in probe order; the first empty probe
      throws. */
  function Snapshots(tests: seq<TestOne>, ts: int): (r: Outcome<seq<Results>>)
    ensures r.Returned? <==> forall i | 0 <= i < |tests| :: tests[i].agg.iterations > 0
    ensures r.Threw? ==> r.exception == ArithmeticException
    ensures r.Returned? ==> |r.value| == |tests| && forall i | 0 <= i < |tests| :: Snapshot(tests[i], ts) == Returned(r.value[i])
  {
    if tests == [] then Returned([])
    else
      match Snapshot(tests[0], ts)
      case Threw(e) => Threw(e)
      case Returned(first) =>
        match Snapshots(tests[1..], ts)
        case Threw(e) => Threw(e)
        case Returned(rest) => Returned([first] + rest)
  }

  /** Each record's average read time is at most the next one's. */
  ghost predicate SortedByRead(rs: seq<Results>)
  {
    forall i | 0 < i < |rs| :: rs[i - 1].tRead <= rs[i].tRead
  }

  /** A record no slower than the head of a sorted list can go in front of it. */
  lemma ConsKeepsSorted(x: Results, rs: seq<Results>)
    requires SortedByRead(rs) && (rs != [] ==> x.tRead <= rs[0].tRead)
    ensures SortedByRead([x] + rs)
  {
  }

  /** Insert `x` before the first element with a larger or equal read time. */
  function InsertByRead(x: Results, rs: seq<Results>): (r: seq<Results>)
    requires SortedByRead(rs)
    ensures SortedByRead(r)
    ensures |r| == |rs| + 1
    ensures r[0] == x || (rs != [] && r[0] == rs[0])
  {
    if rs == [] || x.tRead <= rs[0].tRead then
      ConsKeepsSorted(x, rs);
      [x] + rs
    else
      var tail := rs[1..];
      assert SortedByRead(tail);
      var rest := InsertByRead(x, tail);
      ConsKeepsSorted(rs[0], rest);
      [rs[0]] + rest
  }

  /** Inserting adds `x` and loses nothing. */
  lemma {:induction false} InsertByReadAddsOneRecord(x: Results, rs: seq<Results>)
    requires SortedByRead(rs)
    ensures multiset(InsertByRead(x, rs)) == multiset(rs) + multiset{x}
    decreases |rs|
  {
    if rs != [] && rs[0].tRead < x.tRead {
      assert rs == [rs[0]] + rs[1..];
      InsertByReadAddsOneRecord(x, rs[1..]);
    }
  }

  /** `sortedBy { it.tRead }`, as an insertion sort. */
  function SortByRead(rs: seq<Results>): (r: seq<Results>)
    ensures SortedByRead(r)
    ensures multiset(r) == multiset(rs)
  {
    if rs == [] then []
    else
      var rest := SortByRead(rs[1..]);
      assert rs == [rs[0]] + rs[1..];
      InsertByReadAddsOneRecord(rs[0], rest);
      InsertByRead(rs[0], rest)
  }

  /** No two records share the table's primary key. */
  ghost predicate DistinctKeys(rs: seq<Results>)
  {
    forall i, j | 0 <= i < j < |rs| :: rs[i].Key() != rs[j].Key()
  }

  lemma {:induction false} DistinctKeysMeanNoRepeats(rs: seq<Results>, x: Results)
    requires DistinctKeys(rs)
    ensures multiset(rs)[x] <= 1
    decreases |rs|
  {
    if rs != [] {
      assert rs == [rs[0]] + rs[1..];
      assert DistinctKeys(rs[1..]);
      DistinctKeysMeanNoRepeats(rs[1..], x);
      if x == rs[0] {
        assert x !in rs[1..];
      }
    }
  }

  lemma RepeatCountsTwice(rs: seq<Results>, i: nat, j: nat)
    requires i < j < |rs| && rs[i] == rs[j]
    ensures multiset(rs)[rs[i]] >= 2
  {
    assert rs == rs[..j] + [rs[j]] + rs[j + 1..];
    assert rs[..j][i] == rs[i];
  }

  /** Reordering keeps keys distinct. */
  lemma DistinctKeysSurvivePermutation(a: seq<Results>, b: seq<Results>)
    requires multiset(a) == multiset(b) && DistinctKeys(b)
    ensures DistinctKeys(a)
  {
    forall i, j | 0 <= i < j < |a|
      ensures a[i].Key() != a[j].Key()
    {
      DistinctKeysMeanNoRepeats(b, a[i]);
      if a[i] == a[j] {
        RepeatCountsTwice(a, i, j);
      }
      assert a[i] in multiset(b) && a[j] in multiset(b);
      var p :| 0 <= p < |b| && b[p] == a[i];
      var q :| 0 <= q < |b| && b[q] == a[j];
      assert p != q;
    }
  }

  /** `finishTest`: snapshot all four probes at one timestamp and sort the
      records by average read time. Building the records throws if some probe
      has no samples. */
  function FinishTest(b: LockTest, ts: int): (r: Outcome<seq<Results>>)
    requires b.Valid()
    ensures r.Returned? <==> forall i | 0 <= i < |b.tests| :: b.tests[i].agg.iterations > 0
    ensures r.Threw? ==> r.exception == ArithmeticException
    ensures r.Returned? ==>
              && |r.value| == |AllTypes|
              && SortedByRead(r.value)
              && multiset(r.value) == multiset(Snapshots(b.tests, ts).value)
              && DistinctKeys(r.value)
              && (forall j | 0 <= j < |r.value| :: r.value[j].ts == ts && r.value[j].nThreads == b.nThreads)
  {
    match Snapshots(b.tests, ts)
    case Threw(e) => Threw(e)
    case Returned(rs) =>
      var sorted := SortByRead(rs);
      SnapshotKeysAreDistinct(b, ts);
      SortedReportIsAPermutation(rs, sorted);
      Returned(sorted)
  }

  /** The unsorted records carry the probes' type ids 0 to 3 in order, so
      their keys are distinct. */
  lemma SnapshotKeysAreDistinct(b: LockTest, ts: int)
    requires b.Valid() && Snapshots(b.tests, ts).Returned?
    ensures DistinctKeys(Snapshots(b.tests, ts).value)
    ensures forall x | x in Snapshots(b.tests, ts).value :: x.ts == ts && x.nThreads == b.nThreads
  {
  }

  /** Sorting keeps the records, their number and the distinctness of keys. */
  lemma SortedReportIsAPermutation(rs: seq<Results>, sorted: seq<Results>)
    requires multiset(sorted) == multiset(rs) && DistinctKeys(rs)
    ensures |sorted| == |rs| && DistinctKeys(sorted)
    ensures forall j | 0 <= j < |sorted| :: sorted[j] in rs
  {
    assert |sorted| == |multiset(sorted)| == |multiset(rs)| == |rs|;
    DistinctKeysSurvivePermutation(sorted, rs);
    forall j | 0 <= j < |sorted| ensures sorted[j] in rs {
      assert sorted[j] in multiset(rs);
    }
  }

  /** The report of a complete run: it is delivered (no probe is empty), it
      holds one record per test type, all stamped with the same `ts` and the
      effective thread count, in ascending order of read time, and each
      record's averages are its probe's totals over all workers divided by
      `nThreads * WorkerIterations(nThreads)`. */
  lemma CompletedRunReport(threads: Option<int>, workers: seq<seq<seq<Sample>>>, g: seq<Sample>, ts: int)
    requires IsRunTrace(ClampThreads(threads), workers, g)
    ensures var n := ClampThreads(threads);
            var count := ProbeIterations(n);
            var report := FinishTest(Execute(NewLockTest(threads), g), ts);
            && report.Returned?
            && |report.value| == |AllTypes|
            && SortedByRead(report.value)
            && DistinctKeys(report.value)
            && forall t: TestType ::
                 Results(ts, t.Id(), n, Tally(g, t).tReadTotal / count, Tally(g, t).tWriteTotal / count) in report.value
  {
    var n := ClampThreads(threads);
    var count := ProbeIterations(n);
    var b := Execute(NewLockTest(threads), g);
    forall i | 0 <= i < |AllTypes|
      ensures b.tests[i].agg.iterations > 0
    {
      RunCounts(threads, workers, g, i);
    }
    var rs := Snapshots(b.tests, ts).value;
    var report := FinishTest(b, ts).value;
    forall t: TestType
      ensures Results(ts, t.Id(), n, Tally(g, t).tReadTotal / count, Tally(g, t).tWriteTotal / count) in report
    {
      var i := t.Id();
      RunCounts(threads, workers, g, i);
      var p := b.tests[i];
      assert p.agg == Tally(g, t) && p.agg.iterations == count;
      assert Snapshot(p, ts) == Returned(rs[i]);
      DivisionIsTruncatedMean(p.agg.tReadTotal, count);
      TruncatedMeanIsUnique(rs[i].tRead, p.agg.tReadTotal / count, p.agg.tReadTotal, count);
      DivisionIsTruncatedMean(p.agg.tWriteTotal, count);
      TruncatedMeanIsUnique(rs[i].tWrite, p.agg.tWriteTotal / count, p.agg.tWriteTotal, count);
      assert rs[i] in multiset(report);
    }
  }
}
