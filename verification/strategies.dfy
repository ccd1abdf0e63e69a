/** The four lock strategies of `test/LockTest.kt`. Each guards one cell and
    answers `get(newVal)`; here each `get` is one atomic step from a strategy
    state to a returned value and a next state. Where the code has a window in
    which another thread can write the cell, that write is an explicit input. */
module Strategies {
  import opened Runtime
  import opened Model

  /** A strategy instance: its kind and the reference its cell holds. */
  datatype Strategy = Strategy(kind: TestType, value: Handle)

  /** What one `get` did: the reference it returned and the strategy afterwards. */
  datatype Step = Step(result: Handle, next: Strategy)

  /** `NullTest.get`: hands back the held reference and touches nothing. */
  function NullGet(s: Strategy, newVal: Handle): Step
  {
    Step(s.value, s)
  }

  /** `SynchronizedTest.get`: under the lock, replace the held reference when
      it is not identical to the argument, then return the argument. */
  function SynchronizedGet(s: Strategy, newVal: Handle): Step
  {
    var value := if s.value != newVal then newVal else s.value;
    Step(newVal, s.(value := value))
  }

  /** The `synchronized` block of `DoubleCheckTest.get`, given the snapshot
      `v1` taken before the lock; `s.value` is what the block reads as `v2`.
      As in the source, the inner test looks at `v1` again, not at `v2`. */
  function DoubleCheckLocked(s: Strategy, v1: Handle, newVal: Handle): Step
  {
    var v2 := s.value;
    if v1 == newVal then Step(v2, s)
    else Step(newVal, s.(value := newVal))
  }

  /** `DoubleCheckTest.get` with `racer` the reference another thread stores
      between the unlocked read and this thread's lock acquisition (`None`:
      nobody does). */
  function DoubleCheckRacedGet(s: Strategy, newVal: Handle, racer: Option<Handle>): (r: Step)
    ensures r.result == newVal && r.next.value == newVal
    ensures r.next.kind == s.kind
    ensures s.value == newVal ==> r.next == s
  {
    var v1 := s.value;
    if v1 == newVal then Step(v1, s)
    else
      var atLock := if racer.Some? then s.(value := racer.value) else s;
      DoubleCheckLocked(atLock, v1, newVal)
  }

  /** `DoubleCheckTest.get` as one atomic step. */
  function DoubleCheckGet(s: Strategy, newVal: Handle): Step
  {
    DoubleCheckRacedGet(s, newVal, None)
  }

  /** The locked block as it would read if it re-tested the reference read
      under the lock (`v2`) instead of the snapshot `v1`. */
  function DoubleCheckRereadLocked(s: Strategy, newVal: Handle): Step
  {
    var v2 := s.value;
    if v2 == newVal then Step(v2, s)
    else Step(newVal, s.(value := newVal))
  }

  /** Once the fast path has failed (`v1 !== newVal`), the locked block as
      written returns `newVal` and leaves `newVal` in the cell whatever `v2`
      is: its `return v2` is unreachable. It behaves exactly as the re-reading
      variant would, except that it rewrites the cell when another thread has
      already stored `newVal` there. */
  lemma StaleInnerCheckIsHarmless(s: Strategy, v1: Handle, newVal: Handle)
    requires v1 != newVal
    ensures DoubleCheckLocked(s, v1, newVal) == Step(newVal, s.(value := newVal))
    ensures DoubleCheckLocked(s, v1, newVal).result == DoubleCheckRereadLocked(s, newVal).result
    ensures DoubleCheckLocked(s, v1, newVal).next == DoubleCheckRereadLocked(s, newVal).next
  {
  }

  /** What one spin loop did: the reference returned, the cell afterwards,
      and how many of its `compareAndSet` calls failed. */
  datatype SpinRun = SpinRun(result: Handle, cell: Handle, failures: nat)

  /** How many of the windows saw another thread store a reference. */
  function Stores(racers: seq<Option<Handle>>): nat
    decreases |racers|
  {
    if racers == [] then 0 else (if racers[0].Some? then 1 else 0) + Stores(racers[1..])
  }

  /** One run of `SpinTest.get`'s retry loop on a cell holding `cell`.
      `racers[k]` is the reference some other thread stores between this
      loop's k-th read and its k-th `compareAndSet` (`None`: nothing is
      stored); once `racers` is used up no other thread intervenes. */
  function SpinLoop(cell: Handle, newVal: Handle, racers: seq<Option<Handle>>): (r: SpinRun)
    ensures r.result == newVal && r.cell == newVal
    ensures r.failures <= |racers|
    ensures r.failures <= Stores(racers)
    ensures (forall k | 0 <= k < |racers| :: racers[k].None?) ==> r.failures == 0
    ensures cell == newVal ==> r == SpinRun(cell, cell, 0)
    decreases |racers|
  {
    var v1 := cell;
    if v1 == newVal then SpinRun(v1, cell, 0)
    else if racers == [] then
      // nothing intervenes, so the swap from the value just read succeeds
      var cas := CompareAndSet(cell, v1, newVal);
      SpinRun(newVal, cas.cell, 0)
    else
      var seen := if racers[0].Some? then racers[0].value else cell;
      var cas := CompareAndSet(seen, v1, newVal);
      if cas.succeeded then SpinRun(newVal, cas.cell, 0)
      else
        var rest := SpinLoop(cas.cell, newVal, racers[1..]);
        rest.(failures := rest.failures + 1)
  }

  /** A swap in the spin loop fails exactly when another thread replaced the
      value the loop had just read by a different reference. */
  lemma SpinSwapFailsOnlyOnInterference(cell: Handle, newVal: Handle, racers: seq<Option<Handle>>)
    requires cell != newVal && racers != []
    ensures SpinLoop(cell, newVal, racers).failures > 0 <==> racers[0].Some? && racers[0].value != cell
  {
  }

  /** `SpinTest.get` as one atomic step: the loop with no interference. */
  function SpinGet(s: Strategy, newVal: Handle): Step
  {
    var run := SpinLoop(s.value, newVal, []);
    Step(run.result, s.(value := run.cell))
  }

  /** `Test.get`, dispatched on the strategy's kind. */
  function Get(s: Strategy, newVal: Handle): (r: Step)
    ensures r.next.kind == s.kind
    ensures s.kind == Null ==> r.result == s.value && r.next == s
    ensures s.kind != Null ==> r.result == newVal && r.next.value == newVal
    ensures s.value == newVal ==> r == Step(s.value, s)
  {
    match s.kind
    case Null => NullGet(s, newVal)
    case Synchronized => SynchronizedGet(s, newVal)
    case DoubleChecked => DoubleCheckGet(s, newVal)
    case Spin => SpinGet(s, newVal)
  }

  /** The strategy after a sequence of `get` calls, one after the other. */
  function Apply(s: Strategy, args: seq<Handle>): Strategy
    decreases |args|
  {
    if args == [] then s else Apply(Get(s, args[0]).next, args[1..])
  }

  /** The cell only ever holds the initial reference or one passed to `get`:
      `NullTest` keeps its initial reference for ever, and each of the other
      three holds the most recent argument once it has had one. */
  lemma {:induction false} HeldValueIsInitialOrArgument(s: Strategy, args: seq<Handle>)
    ensures Apply(s, args).kind == s.kind
    ensures Apply(s, args).value == s.value || Apply(s, args).value in args
    ensures s.kind == Null ==> Apply(s, args) == s
    ensures s.kind != Null && args != [] ==> Apply(s, args).value == args[|args| - 1]
    decreases |args|
  {
    if args != [] {
      var s' := Get(s, args[0]).next;
      HeldValueIsInitialOrArgument(s', args[1..]);
      if |args| > 1 {
        assert args[1..][|args[1..]| - 1] == args[|args| - 1];
      }
    }
  }

  /** Passing the held reference back (the benchmark's "read") never changes
      any strategy, however often it is repeated. */
  lemma {:induction false} ReadingTheHeldValueChangesNothing(s: Strategy, n: nat)
    ensures Apply(s, seq(n, _ => s.value)) == s
    decreases n
  {
    if n > 0 {
      var args := seq(n, _ => s.value);
      assert args[1..] == seq(n - 1, _ => s.value);
      ReadingTheHeldValueChangesNothing(s, n - 1);
    }
  }
}
