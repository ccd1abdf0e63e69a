/** `TestOne` of `test/TestHarness.kt`: one strategy kind exercised through a
    "read" instance and a "write" instance, and the running totals of the
    times those calls took. Durations are inputs (what `measureNanoTime`
    reported); each `runOnce` and each `update` is one atomic step. */
module Probe {
  import opened Runtime
  import opened Model
  import opened Strategies

  /** The running aggregate: how many samples, and their summed nanoseconds. */
  datatype Aggregate = Aggregate(iterations: nat, tReadTotal: nat, tWriteTotal: nat)
  {
    /** Two aggregates taken together. */
    function Plus(other: Aggregate): Aggregate
    {
      Aggregate(iterations + other.iterations, tReadTotal + other.tReadTotal, tWriteTotal + other.tWriteTotal)
    }
  }

  /** The aggregate of no samples, as a new `TestOne` starts. */
  const Empty := Aggregate(0, 0, 0)

  lemma EmptyIsNeutral(a: Aggregate)
    ensures Empty.Plus(a) == a
  {
  }

  lemma PlusIsAssociative(a: Aggregate, b: Aggregate, c: Aggregate)
    ensures a.Plus(b).Plus(c) == a.Plus(b.Plus(c))
  {
  }

  /** The aggregate of one sample. */
  function Single(tRead: nat, tWrite: nat): Aggregate
  {
    Aggregate(1, tRead, tWrite)
  }

  /** `update`: fold one sample into the totals. */
  function Update(a: Aggregate, tRead: nat, tWrite: nat): Aggregate
  {
    Aggregate(a.iterations + 1, a.tReadTotal + tRead, a.tWriteTotal + tWrite)
  }

  /** Folding a sample in is adding the one-sample aggregate: the count moves
      by exactly one, each total by exactly its duration, and that is all. */
  lemma UpdateAddsOneSample(a: Aggregate, tRead: nat, tWrite: nat)
    ensures Update(a, tRead, tWrite) == a.Plus(Single(tRead, tWrite))
    ensures Update(a, tRead, tWrite).iterations == a.iterations + 1
  {
  }

  /** A `TestOne`. `nextObject` is the handle the next `Object()` returns:
      every reference the probe has allocated is below it. */
  datatype TestOne = TestOne(
    nThreads: int,
    initVal: Handle,
    readTest: Strategy,
    writeTest: Strategy,
    agg: Aggregate,
    value: Option<Handle>,
    nextObject: Handle)
  {
    /** The probe's strategy kind (`readTest.type`). */
    function Kind(): TestType
    {
      readTest.kind
    }

    /** What holds between steps: both instances are of one kind, the read
        instance still holds `initVal`, a `NullTest` write instance does too,
        and every reference seen was allocated by this probe. */
    ghost predicate Valid()
    {
      && writeTest.kind == readTest.kind
      && readTest.value == initVal
      && (Kind() == Null ==> writeTest.value == initVal)
      && initVal < nextObject
      && writeTest.value < nextObject
      && (value.Some? ==> value.value < nextObject)
    }
  }

  /** The constructor: allocate `initVal` and build both instances on it. */
  function NewTestOne(nThreads: int, kind: TestType): (p: TestOne)
    ensures p.Valid()
    ensures p.Kind() == kind && p.nThreads == nThreads && p.agg == Empty
    ensures p.writeTest == p.readTest == Strategy(kind, p.initVal) && p.value == None
  {
    var initVal: Handle := 0;
    TestOne(nThreads, initVal, Strategy(kind, initVal), Strategy(kind, initVal), Empty, None, initVal + 1)
  }

  /** `runOnce`: allocate a fresh `newVal`, make the read call `get(initVal)`
      and the write call `get(newVal)` in the shuffled order (`readFirst`),
      each assigning its result to `value`, then `update` with the two
      measured durations. */
  function RunOnce(p: TestOne, readFirst: bool, tRead: nat, tWrite: nat): (r: TestOne)
    requires p.Valid()
    ensures r.Valid()
    ensures r.nThreads == p.nThreads && r.initVal == p.initVal && r.Kind() == p.Kind()
    ensures r.readTest == p.readTest
    ensures r.agg.iterations == p.agg.iterations + 1
    ensures r.agg.tReadTotal == p.agg.tReadTotal + tRead && r.agg.tWriteTotal == p.agg.tWriteTotal + tWrite
    ensures r.writeTest.value == if p.Kind() == Null then p.initVal else p.nextObject
    ensures r.writeTest.value != p.writeTest.value <==> p.Kind() != Null
    ensures r.value == Some(if readFirst then r.writeTest.value else p.initVal)
  {
    var oldVal := p.initVal;
    var newVal := p.nextObject;
    var (readNext, writeNext, last) :=
      if readFirst then
        var read := Get(p.readTest, oldVal);
        var write := Get(p.writeTest, newVal);
        (read.next, write.next, write.result)
      else
        var write := Get(p.writeTest, newVal);
        var read := Get(p.readTest, oldVal);
        (read.next, write.next, read.result);
    TestOne(p.nThreads, p.initVal, readNext, writeNext, Update(p.agg, tRead, tWrite), Some(last), newVal + 1)
  }

  /** The shuffle decides only which result is left in `value`; the two
      instances, the aggregate and the allocator end up the same either way. */
  lemma RunOnceOrderIsInvisibleToTheAggregate(p: TestOne, tRead: nat, tWrite: nat)
    requires p.Valid()
    ensures RunOnce(p, true, tRead, tWrite).(value := None) == RunOnce(p, false, tRead, tWrite).(value := None)
  {
  }

  /** `avg` is `total / n` rounded toward zero: the largest whole number whose
      `n`-fold does not exceed `total`. */
  ghost predicate IsTruncatedMean(avg: int, total: nat, n: nat)
  {
    n > 0 && 0 <= avg <= total && avg * n <= total < (avg + 1) * n
  }

  lemma DivisionIsTruncatedMean(total: nat, n: nat)
    requires n > 0
    ensures IsTruncatedMean(total / n, total, n)
  {
    var q, m := total / n, total % n;
    assert total == q * n + m;
    assert 0 <= m < n;
    assert (q + 1) * n == q * n + n;
    AtLeastOnce(q, n);
  }

  lemma AtLeastOnce(a: nat, n: nat)
    requires n >= 1
    ensures a * n >= a
  {
  }

  /** `results(ts)`: the record of this probe's averages. The averages use
      `Long` division, which throws when no sample has been taken. */
  function Snapshot(p: TestOne, ts: int): (r: Outcome<Results>)
    ensures r.Threw? <==> p.agg.iterations == 0
    ensures r.Threw? ==> r.exception == ArithmeticException
    ensures r.Returned? ==>
              && r.value.ts == ts
              && r.value.testType == p.Kind().Id()
              && r.value.nThreads == p.nThreads
              && IsTruncatedMean(r.value.tRead, p.agg.tReadTotal, p.agg.iterations)
              && IsTruncatedMean(r.value.tWrite, p.agg.tWriteTotal, p.agg.iterations)
  {
    if p.agg.iterations == 0 then Threw(ArithmeticException)
    else
      DivisionIsTruncatedMean(p.agg.tReadTotal, p.agg.iterations);
      DivisionIsTruncatedMean(p.agg.tWriteTotal, p.agg.iterations);
      Returned(Results(ts, p.Kind().Id(), p.nThreads,
                       p.agg.tReadTotal / p.agg.iterations, p.agg.tWriteTotal / p.agg.iterations))
  }

  /** A truncated mean is unique, so the record's averages are determined by
      the aggregate alone. */
  lemma TruncatedMeanIsUnique(a: int, b: int, total: nat, n: nat)
    requires IsTruncatedMean(a, total, n) && IsTruncatedMean(b, total, n)
    ensures a == b
  {
  }
}
