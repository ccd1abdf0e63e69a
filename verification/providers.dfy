/** The lazily initialising providers of `example/Provider.kt`: each wraps an
    underlying provider and caches the first value it yields. A `get` is one
    step from a cache to a result and a new cache; `supplied` is what the
    underlying `provider.get()` returns should it be called, and the racer
    inputs are what another thread stores in the cache during a window this
    call leaves open. In both classes the only write to the cache happens when
    it is null, so another thread can only ever turn a null cache into a
    reference: a racer is that reference (`None`: nobody stores one). */
module Providers {
  import opened Runtime

  /** What one or more `get` calls did: their result, the cache afterwards,
      and how many times they called the underlying provider. */
  datatype Fetch<+T> = Fetch(result: T, cache: Option<Handle>, calls: nat)

  /** A cache after another thread's possible store into it: a store only
      happens into a null cache. */
  function Raced(cache: Option<Handle>, racer: Option<Handle>): (c: Option<Handle>)
    ensures cache.Some? ==> c == cache
    ensures c.None? <==> cache.None? && racer.None?
  {
    if cache.None? && racer.Some? then racer else cache
  }

  /** `DoubleCheckedProvider.get`. `beforeLock` is stored by another thread
      between the unlocked null test and this thread taking the lock;
      `beforeReturn` between this thread leaving the lock and its final
      read of the cache for `value!!`. */
  function DoubleCheckedProviderGet(cache: Option<Handle>, supplied: Option<Handle>,
                            beforeLock: Option<Handle>, beforeReturn: Option<Handle>): (r: Fetch<Outcome<Handle>>)
    ensures cache.Some? ==> r == Fetch(Returned(cache.value), cache, 0)
    ensures r.calls == 1 <==> cache.None? && beforeLock.None?
    ensures r.calls <= 1
    ensures r.result.Returned? <==> r.cache.Some?
    ensures r.result.Returned? ==> r.cache == Some(r.result.value)
    ensures r.result.Threw? ==> r.result.exception == NullPointerException && supplied.None? && r.calls == 1
    ensures cache.None? && beforeLock.None? && supplied.Some? ==> r.cache == supplied
    ensures cache.None? && beforeLock.Some? ==> r == Fetch(Returned(beforeLock.value), beforeLock, 0)
    ensures cache.None? && beforeLock.None? && supplied.None? ==>
              r == if beforeReturn.Some? then Fetch(Returned(beforeReturn.value), beforeReturn, 1)
                   else Fetch(Threw(NullPointerException), None, 1)
  {
    var (stored, calls) :=
      if cache.Some? then (cache, 0)
      else
        var atLock := Raced(cache, beforeLock);
        if atLock.Some? then (atLock, 0) else (supplied, 1);
    var final := Raced(stored, beforeReturn);
    if final.Some? then Fetch(Returned(final.value), final, calls)
    else Fetch(Threw(NullPointerException), final, calls)
  }

  /** `SpinProvider.get`: one pass of the loop reads the cache, returns it if
      it is set, and otherwise calls the provider and tries to swap its value
      in for null; `racer` is stored by another thread between this pass's
      read and its `compareAndSet`. A failed swap starts the next pass. */
  function SpinProviderGet(cache: Option<Handle>, supplied: Option<Handle>, racer: Option<Handle>): (r: Fetch<Option<Handle>>)
    ensures cache.Some? ==> r == Fetch(cache, cache, 0)
    ensures cache.None? ==> r.calls == 1
    ensures r.result == r.cache
    ensures cache.None? && racer.None? ==> r.result == supplied
    ensures cache.None? && racer.Some? ==> r.result == racer
    decreases if cache.None? then 1 else 0
  {
    var v1 := cache;
    if v1.Some? then Fetch(v1, cache, 0)
    else
      var v2 := supplied;
      var cas := CompareAndSet(Raced(cache, racer), None, v2);
      if cas.succeeded then Fetch(v2, cas.cell, 1)
      else
        // the swap failed, so the cache is set and the next pass returns it
        var again := SpinProviderGet(cas.cell, supplied, None);
        again.(calls := again.calls + 1)
  }

  /** Without interference, `SpinProvider.get` on an empty cache calls the
      provider once, its swap from null succeeds, and the provider's value is
      both returned and cached. */
  lemma SpinProviderGetUninterrupted(supplied: Option<Handle>)
    ensures SpinProviderGet(None, supplied, None) == Fetch(supplied, supplied, 1)
  {
  }

  /** The inputs of one `get` in a sequence: what the provider would yield and
      what other threads store in the windows the call leaves open
      (`SpinProvider` has one window, `racer`; `DoubleCheckedProvider` has
      two, `racer` before its lock and `lateRacer` before its final read). */
  datatype Call = Call(supplied: Option<Handle>, racer: Option<Handle>, lateRacer: Option<Handle>)

  /** Successive `DoubleCheckedProvider.get` calls by one thread. */
  function DoubleCheckedProviderRun(cache: Option<Handle>, cs: seq<Call>): (r: Fetch<seq<Outcome<Handle>>>)
    ensures |r.result| == |cs|
    ensures r.calls <= |cs|
    ensures cache.Some? ==> r.cache == cache
    decreases |cs|
  {
    if cs == [] then Fetch([], cache, 0)
    else
      var f := DoubleCheckedProviderGet(cache, cs[0].supplied, cs[0].racer, cs[0].lateRacer);
      var rest := DoubleCheckedProviderRun(f.cache, cs[1..]);
      Fetch([f.result] + rest.result, rest.cache, f.calls + rest.calls)
  }

  /** Successive `SpinProvider.get` calls by one thread. */
  function SpinProviderRun(cache: Option<Handle>, cs: seq<Call>): (r: Fetch<seq<Option<Handle>>>)
    ensures |r.result| == |cs|
    ensures r.calls <= |cs|
    ensures cache.Some? ==> r.cache == cache
    decreases |cs|
  {
    if cs == [] then Fetch([], cache, 0)
    else
      var f := SpinProviderGet(cache, cs[0].supplied, cs[0].racer);
      var rest := SpinProviderRun(f.cache, cs[1..]);
      Fetch([f.result] + rest.result, rest.cache, f.calls + rest.calls)
  }

  /** Once the double-checked cache is set, every later `get` returns it
      without calling the provider, and the cache never changes again. */
  lemma {:induction false} DoubleCheckedIsIdempotentOnceSet(v: Handle, cs: seq<Call>)
    ensures DoubleCheckedProviderRun(Some(v), cs).cache == Some(v) && DoubleCheckedProviderRun(Some(v), cs).calls == 0
    ensures forall k | 0 <= k < |cs| :: DoubleCheckedProviderRun(Some(v), cs).result[k] == Returned(v)
    decreases |cs|
  {
    if cs != [] {
      DoubleCheckedIsIdempotentOnceSet(v, cs[1..]);
      assert DoubleCheckedProviderRun(Some(v), cs).result == [Returned(v)] + DoubleCheckedProviderRun(Some(v), cs[1..]).result;
    }
  }

  /** Once the spin cache is set, every later `get` returns it without calling
      the provider, and the cache never changes again. */
  lemma {:induction false} SpinIsIdempotentOnceSet(v: Handle, cs: seq<Call>)
    ensures SpinProviderRun(Some(v), cs).cache == Some(v) && SpinProviderRun(Some(v), cs).calls == 0
    ensures forall k | 0 <= k < |cs| :: SpinProviderRun(Some(v), cs).result[k] == Some(v)
    decreases |cs|
  {
    if cs != [] {
      SpinIsIdempotentOnceSet(v, cs[1..]);
      assert SpinProviderRun(Some(v), cs).result == [Some(v)] + SpinProviderRun(Some(v), cs[1..]).result;
    }
  }

  /** After a double-checked `get` has returned a value, every later `get` of
      the same thread returns that same value. */
  lemma {:induction false} DoubleCheckedValueIsFixed(cache: Option<Handle>, cs: seq<Call>, i: nat, j: nat)
    requires i < j < |cs|
    requires DoubleCheckedProviderRun(cache, cs).result[i].Returned?
    ensures DoubleCheckedProviderRun(cache, cs).result[j] == DoubleCheckedProviderRun(cache, cs).result[i]
    decreases |cs|
  {
    var f := DoubleCheckedProviderGet(cache, cs[0].supplied, cs[0].racer, cs[0].lateRacer);
    assert DoubleCheckedProviderRun(cache, cs).result == [f.result] + DoubleCheckedProviderRun(f.cache, cs[1..]).result;
    if i == 0 {
      DoubleCheckedIsIdempotentOnceSet(f.result.value, cs[1..]);
    } else {
      DoubleCheckedValueIsFixed(f.cache, cs[1..], i - 1, j - 1);
    }
  }

  /** After a spin `get` has returned a non-null value, every later `get` of
      the same thread returns that same value. */
  lemma {:induction false} SpinValueIsFixed(cache: Option<Handle>, cs: seq<Call>, i: nat, j: nat)
    requires i < j < |cs|
    requires SpinProviderRun(cache, cs).result[i].Some?
    ensures SpinProviderRun(cache, cs).result[j] == SpinProviderRun(cache, cs).result[i]
    decreases |cs|
  {
    var f := SpinProviderGet(cache, cs[0].supplied, cs[0].racer);
    assert SpinProviderRun(cache, cs).result == [f.result] + SpinProviderRun(f.cache, cs[1..]).result;
    if i == 0 {
      SpinIsIdempotentOnceSet(f.result.value, cs[1..]);
    } else {
      SpinValueIsFixed(f.cache, cs[1..], i - 1, j - 1);
    }
  }

  /** With nobody racing, the two providers behave alike: they call the
      underlying provider equally often and end with the same cache, and the
      double-checked one throws exactly where the spin one hands back null. */
  lemma {:induction false} ProvidersAgreeWithoutRaces(cache: Option<Handle>, cs: seq<Call>)
    requires forall k | 0 <= k < |cs| :: cs[k].racer.None? && cs[k].lateRacer.None?
    ensures DoubleCheckedProviderRun(cache, cs).calls == SpinProviderRun(cache, cs).calls
    ensures DoubleCheckedProviderRun(cache, cs).cache == SpinProviderRun(cache, cs).cache
    ensures forall k | 0 <= k < |cs| ::
              DoubleCheckedProviderRun(cache, cs).result[k] ==
                if SpinProviderRun(cache, cs).result[k].Some? then Returned(SpinProviderRun(cache, cs).result[k].value)
                else Threw(NullPointerException)
    decreases |cs|
  {
    if cs != [] {
      var d := DoubleCheckedProviderGet(cache, cs[0].supplied, None, None);
      var s := SpinProviderGet(cache, cs[0].supplied, None);
      assert d.cache == s.cache && d.calls == s.calls;
      ProvidersAgreeWithoutRaces(s.cache, cs[1..]);
      var dr := DoubleCheckedProviderRun(cache, cs).result;
      var sr := SpinProviderRun(cache, cs).result;
      assert dr == [d.result] + DoubleCheckedProviderRun(s.cache, cs[1..]).result;
      assert sr == [s.result] + SpinProviderRun(s.cache, cs[1..]).result;
    }
  }
}
