/**
 * `func_remember` (util/src/func.ts): a memoizing wrapper around a source
 * function, holding one cache cell `{key, res}` or `undefined`.
 *
 * The calling context `this` is an explicit `Ctx` argument. The source and
 * the key function end in an `Outcome`, so a throw is a value here. Leaving
 * out the key function is modelled by `NoKey`, which always derives the key
 * `undefined`.
 */
module Remember {
  import opened Outcomes

  /** The record `{key, res}` held in the cache cell. */
  datatype Entry<K, R> = Entry(key: K, res: R)

  /** The JavaScript value `undefined`, as a key. */
  datatype Undefined = Undefined

  /** The function being remembered, with its `this` as first argument. */
  type Source<!Ctx, !Args, R, E> = (Ctx, Args) -> Outcome<R, E>

  /** The key function; with the same parameters as the source. */
  type KeyFn<!Ctx, !Args, K, E> = (Ctx, Args) -> Outcome<K, E>

  /** The key derived when no key function is given: `key?.apply(...)` is `undefined`. */
  function NoKey<Ctx(!new), Args(!new), E>(): (f: KeyFn<Ctx, Args, Undefined, E>)
    ensures forall ctx, args :: f(ctx, args).Ok?
    ensures forall c1, a1, c2, a2 :: f(c1, a1) == f(c2, a2)
  {
    (ctx: Ctx, args: Args) => Ok(Undefined)
  }

  /** The key of a cell: the key of its record, or `None` when the cell is empty. */
  function CachedKey<K, R>(cached: Option<Entry<K, R>>): Option<K>
  {
    if cached.Some? then Some(cached.value.key) else None
  }

  /** The result of a cell: the result of its record, or `None` when the cell is empty. */
  function CachedResult<K, R>(cached: Option<Entry<K, R>>): Option<R>
  {
    if cached.Some? then Some(cached.value.res) else None
  }

  /** What one call does: what it ends in, the new cell, and whether the source ran. */
  datatype Transition<K, R, E> = Transition(out: Outcome<R, E>, cached: Option<Entry<K, R>>, applied: bool)

  /**
   * One call of the remembered function. The key is derived first, on every
   * call; the source runs when the cell is empty or the key differs from the
   * cached one; a successful run replaces key and result as one record, and
   * a throw (of the key function or of the source) leaves the cell as it was.
   */
  function Step<Ctx, Args, K(==), R, E>(source: Source<Ctx, Args, R, E>, keyOf: KeyFn<Ctx, Args, K, E>,
                                        cached: Option<Entry<K, R>>, ctx: Ctx, args: Args): (t: Transition<K, R, E>)
    ensures t.out.Ok? ==> t.cached.Some? && t.cached.value.res == t.out.value
    ensures t.out.Throw? ==> t.cached == cached
    ensures !t.applied ==> t.cached == cached
    ensures keyOf(ctx, args).Throw? ==> t.out == Throw(keyOf(ctx, args).error) && !t.applied
  {
    match keyOf(ctx, args)
    case Throw(e) => Transition(Throw(e), cached, false)
    case Ok(newKey) =>
      if cached.None? || newKey != cached.value.key then
        match source(ctx, args)
        case Throw(e) => Transition(Throw(e), cached, true)
        case Ok(res) => Transition(Ok(res), Some(Entry(newKey, res)), true)
      else
        Transition(Ok(cached.value.res), cached, false)
  }

  /** The unmemoized call the wrapper stands for: derive the key, then run the source. */
  function Direct<Ctx, Args, K, R, E>(source: Source<Ctx, Args, R, E>, keyOf: KeyFn<Ctx, Args, K, E>,
                                      ctx: Ctx, args: Args): Outcome<R, E>
  {
    match keyOf(ctx, args)
    case Throw(e) => Throw(e)
    case Ok(_) => source(ctx, args)
  }

  /** The `this` and the arguments of one call. */
  datatype Invocation<Ctx, Args> = Invocation(ctx: Ctx, args: Args)

  /** What a sequence of calls does: the outcome of each, the final cell, and how often the source ran. */
  datatype Trace<K, R, E> = Trace(outs: seq<Outcome<R, E>>, cached: Option<Entry<K, R>>, sourceCalls: nat)

  /** A sequence of calls, one `Step` after another, starting from the cell `cached`. */
  function Run<Ctx, Args, K(==), R, E>(source: Source<Ctx, Args, R, E>, keyOf: KeyFn<Ctx, Args, K, E>,
                                       cached: Option<Entry<K, R>>, calls: seq<Invocation<Ctx, Args>>): (t: Trace<K, R, E>)
    ensures |t.outs| == |calls|
    ensures t.sourceCalls <= |calls|
    decreases |calls|
  {
    if calls == [] then Trace([], cached, 0)
    else
      var s := Step(source, keyOf, cached, calls[0].ctx, calls[0].args);
      var rest := Run(source, keyOf, s.cached, calls[1..]);
      Trace([s.out] + rest.outs, rest.cached, rest.sourceCalls + if s.applied then 1 else 0)
  }

  /** How many keys of `keys` differ from the key just before them (`prev` before the first). */
  function KeyChanges<K(==)>(prev: Option<K>, keys: seq<K>): (n: nat)
    ensures n <= |keys|
    decreases |keys|
  {
    if keys == [] then 0
    else (if prev == Some(keys[0]) then 0 else 1) + KeyChanges(Some(keys[0]), keys[1..])
  }

  // ---------------------------------------------------------------------------
  // One call

  /** Recompute rule: the source runs exactly when the key is derived and the cell is empty or holds another key. */
  lemma RecomputesIff<Ctx, Args, K, R, E>(source: Source<Ctx, Args, R, E>, keyOf: KeyFn<Ctx, Args, K, E>,
                                              cached: Option<Entry<K, R>>, ctx: Ctx, args: Args)
    ensures Step(source, keyOf, cached, ctx, args).applied
            <==> keyOf(ctx, args).Ok? && CachedKey(cached) != Some(keyOf(ctx, args).value)
  {
  }

  /** From an empty cell, a call whose key and source succeed stores `(key, result)` and returns the result. */
  lemma EmptyCellComputes<Ctx, Args, K, R, E>(source: Source<Ctx, Args, R, E>, keyOf: KeyFn<Ctx, Args, K, E>,
                                                  ctx: Ctx, args: Args, k: K, r: R)
    requires keyOf(ctx, args) == Ok(k) && source(ctx, args) == Ok(r)
    ensures Step(source, keyOf, None, ctx, args) == Transition(Ok(r), Some(Entry(k, r)), true)
  {
  }

  /** A call whose key equals the cached key returns the cached result, does not run the source, and keeps the cell. */
  lemma SameKeyHits<Ctx, Args, K, R, E>(source: Source<Ctx, Args, R, E>, keyOf: KeyFn<Ctx, Args, K, E>,
                                            e: Entry<K, R>, ctx: Ctx, args: Args)
    requires keyOf(ctx, args) == Ok(e.key)
    ensures Step(source, keyOf, Some(e), ctx, args) == Transition(Ok(e.res), Some(e), false)
  {
  }

  /** A call with a new key whose source succeeds replaces key and result together and returns the new result. */
  lemma NewKeyReplacesPair<Ctx, Args, K, R, E>(source: Source<Ctx, Args, R, E>, keyOf: KeyFn<Ctx, Args, K, E>,
                                                   e: Entry<K, R>, ctx: Ctx, args: Args, k: K, r: R)
    requires keyOf(ctx, args) == Ok(k) && k != e.key && source(ctx, args) == Ok(r)
    ensures Step(source, keyOf, Some(e), ctx, args) == Transition(Ok(r), Some(Entry(k, r)), true)
  {
  }

  /** A throw, of the key function or of the source, propagates and leaves the cell exactly as it was. */
  lemma ThrowKeepsCell<Ctx, Args, K, R, E>(source: Source<Ctx, Args, R, E>, keyOf: KeyFn<Ctx, Args, K, E>,
                                               cached: Option<Entry<K, R>>, ctx: Ctx, args: Args)
    ensures var t := Step(source, keyOf, cached, ctx, args);
            t.out.Throw? ==> t.cached == cached
    ensures keyOf(ctx, args).Throw? ==> Step(source, keyOf, cached, ctx, args) == Transition(Throw(keyOf(ctx, args).error), cached, false)
    ensures keyOf(ctx, args).Ok? && CachedKey(cached) != Some(keyOf(ctx, args).value) && source(ctx, args).Throw? ==>
              Step(source, keyOf, cached, ctx, args) == Transition(source(ctx, args), cached, true)
  {
  }

  /** A successful call leaves the cell holding the key it derived and the result it returned. */
  lemma OkCallFillsCell<Ctx, Args, K, R, E>(source: Source<Ctx, Args, R, E>, keyOf: KeyFn<Ctx, Args, K, E>,
                                                cached: Option<Entry<K, R>>, ctx: Ctx, args: Args)
    ensures var t := Step(source, keyOf, cached, ctx, args);
            t.out.Ok? ==> keyOf(ctx, args).Ok? && t.cached == Some(Entry(keyOf(ctx, args).value, t.out.value))
  {
  }

  // ---------------------------------------------------------------------------
  // Sequences of calls

  /** While every derived key equals the cached key, no call runs the source and every call returns the cached result. */
  lemma {:induction false} HitsWhileKeyUnchanged<Ctx, Args, K, R, E>(source: Source<Ctx, Args, R, E>, keyOf: KeyFn<Ctx, Args, K, E>,
                                                                         e: Entry<K, R>, calls: seq<Invocation<Ctx, Args>>)
    requires forall i :: 0 <= i < |calls| ==> keyOf(calls[i].ctx, calls[i].args) == Ok(e.key)
    ensures var t := Run(source, keyOf, Some(e), calls);
            t.sourceCalls == 0 && t.cached == Some(e) && forall i :: 0 <= i < |calls| ==> t.outs[i] == Ok(e.res)
    decreases |calls|
  {
    if calls != [] {
      assert keyOf(calls[0].ctx, calls[0].args) == Ok(e.key);
      HitsWhileKeyUnchanged(source, keyOf, e, calls[1..]);
    }
  }

  /**
   * With a constant key, starting from an empty cell, the source runs exactly
   * once (on the first call, if it succeeds) and every call returns its result.
   */
  lemma {:induction false} ConstantKeyComputesOnce<Ctx, Args, K, R, E>(source: Source<Ctx, Args, R, E>, keyOf: KeyFn<Ctx, Args, K, E>,
                                                                           calls: seq<Invocation<Ctx, Args>>, k: K)
    requires |calls| > 0
    requires forall i :: 0 <= i < |calls| ==> keyOf(calls[i].ctx, calls[i].args) == Ok(k)
    requires source(calls[0].ctx, calls[0].args).Ok?
    ensures var t := Run(source, keyOf, None, calls);
            t.sourceCalls == 1 && forall i :: 0 <= i < |calls| ==> t.outs[i] == source(calls[0].ctx, calls[0].args)
  {
    var r := source(calls[0].ctx, calls[0].args).value;
    assert keyOf(calls[0].ctx, calls[0].args) == Ok(k);
    var e := Entry(k, r);
    HitsWhileKeyUnchanged(source, keyOf, e, calls[1..]);
  }

  /**
   * Without a key function, the first call that succeeds computes the result
   * and every later call returns it, whatever its arguments, without running
   * the source again.
   */
  lemma NoKeyComputesOnce<Ctx(!new), Args(!new), R, E>(source: Source<Ctx, Args, R, E>, calls: seq<Invocation<Ctx, Args>>)
    requires |calls| > 0 && source(calls[0].ctx, calls[0].args).Ok?
    ensures var t := Run(source, NoKey(), None, calls);
            t.sourceCalls == 1 && forall i :: 0 <= i < |calls| ==> t.outs[i] == source(calls[0].ctx, calls[0].args)
  {
    var keyOf := NoKey<Ctx, Args, E>();
    ConstantKeyComputesOnce(source, keyOf, calls, Undefined);
  }

  /**
   * When every key and every source call succeeds, the source runs once per
   * call whose key differs from the key just before it (the cached key before
   * the first call).
   */
  lemma {:induction false} SourceCallsCountKeyChanges<Ctx, Args, K, R, E>(source: Source<Ctx, Args, R, E>, keyOf: KeyFn<Ctx, Args, K, E>,
                                                                              cached: Option<Entry<K, R>>, calls: seq<Invocation<Ctx, Args>>, keys: seq<K>)
    requires |keys| == |calls|
    requires forall i :: 0 <= i < |calls| ==> keyOf(calls[i].ctx, calls[i].args) == Ok(keys[i])
    requires forall i :: 0 <= i < |calls| ==> Run(source, keyOf, cached, calls).outs[i].Ok?
    ensures Run(source, keyOf, cached, calls).sourceCalls == KeyChanges(CachedKey(cached), keys)
    decreases |calls|
  {
    if calls != [] {
      var t := Run(source, keyOf, cached, calls);
      var s := Step(source, keyOf, cached, calls[0].ctx, calls[0].args);
      var rest := Run(source, keyOf, s.cached, calls[1..]);
      assert t.outs[0] == s.out;
      assert keyOf(calls[0].ctx, calls[0].args) == Ok(keys[0]);
      OkCallFillsCell(source, keyOf, cached, calls[0].ctx, calls[0].args);
      assert CachedKey(s.cached) == Some(keys[0]);
      RecomputesIff(source, keyOf, cached, calls[0].ctx, calls[0].args);
      forall i | 0 <= i < |calls| - 1
        ensures rest.outs[i].Ok?
      {
        assert rest.outs[i] == t.outs[i + 1];
      }
      SourceCallsCountKeyChanges(source, keyOf, s.cached, calls[1..], keys[1..]);
    }
  }

  /** When neither the key function nor the source throws on any call's arguments, no call of the sequence throws. */
  lemma {:induction false} NoThrowRunsOk<Ctx, Args, K, R, E>(source: Source<Ctx, Args, R, E>, keyOf: KeyFn<Ctx, Args, K, E>,
                                                             cached: Option<Entry<K, R>>, calls: seq<Invocation<Ctx, Args>>)
    requires forall i :: 0 <= i < |calls| ==> keyOf(calls[i].ctx, calls[i].args).Ok? && source(calls[i].ctx, calls[i].args).Ok?
    ensures forall i :: 0 <= i < |calls| ==> Run(source, keyOf, cached, calls).outs[i].Ok?
    decreases |calls|
  {
    if calls != [] {
      var t := Run(source, keyOf, cached, calls);
      var s := Step(source, keyOf, cached, calls[0].ctx, calls[0].args);
      var rest := Run(source, keyOf, s.cached, calls[1..]);
      assert keyOf(calls[0].ctx, calls[0].args).Ok? && source(calls[0].ctx, calls[0].args).Ok?;
      NoThrowRunsOk(source, keyOf, s.cached, calls[1..]);
      forall i | 0 <= i < |calls|
        ensures t.outs[i].Ok?
      {
        if i > 0 {
          assert t.outs[i] == rest.outs[i - 1];
        }
      }
    }
  }

  /** Keys `a, b, a` with `a != b`, starting from an empty cell, change three times. */
  lemma AlternatingKeysChange<K>(a: K, b: K)
    requires a != b
    ensures KeyChanges(None, [a, b, a]) == 3
  {
    assert [a][1..] == [];
    assert KeyChanges(Some(b), [a]) == 1;
    assert [b, a][1..] == [a];
    assert KeyChanges(Some(a), [b, a]) == 2;
    assert [a, b, a][1..] == [b, a];
  }

  /**
   * The cache holds one entry only: keys `a, b, a` with `a != b` run the
   * source three times, although only two distinct keys were seen.
   */
  lemma OneSlotCache<Ctx, Args, K, R, E>(source: Source<Ctx, Args, R, E>, keyOf: KeyFn<Ctx, Args, K, E>,
                                         calls: seq<Invocation<Ctx, Args>>, a: K, b: K)
    requires |calls| == 3 && a != b
    requires forall i :: 0 <= i < 3 ==> source(calls[i].ctx, calls[i].args).Ok?
    requires keyOf(calls[0].ctx, calls[0].args) == Ok(a)
    requires keyOf(calls[1].ctx, calls[1].args) == Ok(b)
    requires keyOf(calls[2].ctx, calls[2].args) == Ok(a)
    ensures Run(source, keyOf, None, calls).sourceCalls == 3
  {
    var keys := [a, b, a];
    assert forall i :: 0 <= i < 3 ==> keyOf(calls[i].ctx, calls[i].args) == Ok(keys[i]);
    NoThrowRunsOk(source, keyOf, None, calls);
    SourceCallsCountKeyChanges(source, keyOf, None, calls, keys);
    AlternatingKeysChange(a, b);
  }

  /** The key function captures everything the source's outcome depends on. */
  ghost predicate KeyDetermines<Ctx(!new), Args(!new), K, R, E>(source: Source<Ctx, Args, R, E>, keyOf: KeyFn<Ctx, Args, K, E>)
  {
    forall c1, a1, c2, a2 :: keyOf(c1, a1).Ok? && keyOf(c1, a1) == keyOf(c2, a2) ==> source(c1, a1) == source(c2, a2)
  }

  /** The cached result is what the source returns for every call with the cached key. */
  ghost predicate Coherent<Ctx(!new), Args(!new), K, R, E>(source: Source<Ctx, Args, R, E>, keyOf: KeyFn<Ctx, Args, K, E>,
                                               cached: Option<Entry<K, R>>)
  {
    cached.Some? ==>
      forall c, a :: keyOf(c, a) == Ok(cached.value.key) ==> source(c, a) == Ok(cached.value.res)
  }

  /** One call, when the key determines the source: it answers as the unmemoized call and keeps the cell coherent. */
  lemma StepTransparent<Ctx(!new), Args(!new), K, R, E>(source: Source<Ctx, Args, R, E>, keyOf: KeyFn<Ctx, Args, K, E>,
                                                cached: Option<Entry<K, R>>, ctx: Ctx, args: Args)
    requires KeyDetermines(source, keyOf) && Coherent(source, keyOf, cached)
    ensures var t := Step(source, keyOf, cached, ctx, args);
            t.out == Direct(source, keyOf, ctx, args) && Coherent(source, keyOf, t.cached)
  {
  }

  /**
   * Memoization is invisible when the key determines the source: starting
   * from an empty (or coherent) cell, every call of a sequence returns what
   * the unmemoized call would.
   */
  lemma {:induction false} RunTransparent<Ctx(!new), Args(!new), K, R, E>(source: Source<Ctx, Args, R, E>, keyOf: KeyFn<Ctx, Args, K, E>,
                                                                  cached: Option<Entry<K, R>>, calls: seq<Invocation<Ctx, Args>>)
    requires KeyDetermines(source, keyOf) && Coherent(source, keyOf, cached)
    ensures var t := Run(source, keyOf, cached, calls);
            forall i :: 0 <= i < |calls| ==> t.outs[i] == Direct(source, keyOf, calls[i].ctx, calls[i].args)
    decreases |calls|
  {
    if calls != [] {
      var s := Step(source, keyOf, cached, calls[0].ctx, calls[0].args);
      StepTransparent(source, keyOf, cached, calls[0].ctx, calls[0].args);
      RunTransparent(source, keyOf, s.cached, calls[1..]);
    }
  }

  /** `source(n) = n * 2` remembered under `key(n) = n % 2`. */
  function Double(ctx: Undefined, n: nat): Outcome<int, Undefined> { Ok(n * 2) }
  function Parity(ctx: Undefined, n: nat): Outcome<int, Undefined> { Ok(n % 2) }

  /** Calls with 1, 3, 2 return 2, then the stale 2 (key 1 unchanged), then 4, running the source twice. */
  lemma ParityScenario()
    ensures var calls: seq<Invocation<Undefined, nat>> :=
              [Invocation(Undefined, 1), Invocation(Undefined, 3), Invocation(Undefined, 2)];
            var t := Run(Double, Parity, None, calls);
            t.outs == [Ok(2), Ok(2), Ok(4)] && t.sourceCalls == 2
  {
  }

  // ---------------------------------------------------------------------------
  // The wrapper object

  /** The function returned by `func_remember`, with its getters, `reset` and `rerun`. */
  class Remembered<Ctx, Args, K(==), R, E> {
    /** The getter `source`: the wrapped function, never replaced. */
    const source: Source<Ctx, Args, R, E>
    const keyOf: KeyFn<Ctx, Args, K, E>
    /** The calling context that stands for `this === undefined`, as in a plain function call. */
    const undefinedThis: Ctx
    /** The closure variable `result`: `{key, res}` or `undefined`. */
    var cached: Option<Entry<K, R>>
    /** How many times the source and the key function have been applied. */
    ghost var sourceCalls: nat
    ghost var keyCalls: nat

    /** `func_remember(func, key)`: the cell starts empty. */
    constructor (source: Source<Ctx, Args, R, E>, keyOf: KeyFn<Ctx, Args, K, E>, undefinedThis: Ctx)
      ensures this.source == source && this.keyOf == keyOf && this.undefinedThis == undefinedThis
      ensures cached == None && sourceCalls == 0 && keyCalls == 0
    {
      this.source := source;
      this.keyOf := keyOf;
      this.undefinedThis := undefinedThis;
      cached := None;
      sourceCalls := 0;
      keyCalls := 0;
    }

    /** The getter `runned`: the cell is populated, that is, key and result are both defined. */
    predicate Runned()
      reads this
      ensures Runned() <==> Key().Some? && ReturnValue().Some?
    {
      cached != None
    }

    /** The getter `key`: defined together with `returnValue`, and then the key of the cached record. */
    function Key(): (k: Option<K>)
      reads this
      ensures k.Some? <==> ReturnValue().Some?
      ensures cached.Some? ==> k == Some(cached.value.key)
    {
      CachedKey(cached)
    }

    /** The getter `returnValue`: undefined on an empty cell, else the result of the cached record. */
    function ReturnValue(): Option<R>
      reads this
    {
      CachedResult(cached)
    }

    /**
     * Calling the remembered function: `once_fn`. The key function runs on
     * every call; the cell, the outcome and the source's use follow `Step`.
     */
    method Call(ctx: Ctx, args: Args) returns (out: Outcome<R, E>)
      modifies this
      ensures keyCalls == old(keyCalls) + 1
      ensures var t := Step(source, keyOf, old(cached), ctx, args);
              out == t.out && cached == t.cached && sourceCalls == old(sourceCalls) + (if t.applied then 1 else 0)
      ensures out.Ok? ==> Runned() && ReturnValue() == Some(out.value) && Key() == Some(keyOf(ctx, args).value)
      ensures out.Throw? ==> cached == old(cached)
    {
      var newKey := keyOf(ctx, args);
      keyCalls := keyCalls + 1;
      if newKey.Throw? {
        return Throw(newKey.error);
      }
      if cached.None? || newKey.value != cached.value.key {
        var res := source(ctx, args);
        sourceCalls := sourceCalls + 1;
        if res.Throw? {
          return Throw(res.error);
        }
        cached := Some(Entry(newKey.value, res.value));
      }
      out := Ok(cached.value.res);
    }

    /** `reset`: empties the cell, so `runned` is false and `key` and `returnValue` are undefined. */
    method Reset()
      modifies this
      ensures cached == None && !Runned() && Key() == None && ReturnValue() == None
      ensures sourceCalls == old(sourceCalls) && keyCalls == old(keyCalls)
    {
      cached := None;
    }

    /**
     * `rerun`: `reset` followed by a plain call of the wrapper, so the key
     * function and the source see `this` undefined, whatever `rerun` was
     * called on. The source runs whenever the key function succeeds, even if
     * the key equals the one cached before; if the key function throws, the
     * reset has already emptied the cell.
     */
    method Rerun(args: Args) returns (out: Outcome<R, E>)
      modifies this
      ensures keyCalls == old(keyCalls) + 1
      ensures var t := Step(source, keyOf, None, undefinedThis, args);
              out == t.out && cached == t.cached && sourceCalls == old(sourceCalls) + (if t.applied then 1 else 0)
      ensures sourceCalls == old(sourceCalls) + (if keyOf(undefinedThis, args).Ok? then 1 else 0)
      ensures out.Ok? ==> ReturnValue() == Some(out.value)
    {
      Reset();
      out := Call(undefinedThis, args);
    }
  }

  /** After `reset`, a call whose key function succeeds runs the source, whatever key was cached before. */
  lemma ResetForcesRecompute<Ctx, Args, K, R, E>(source: Source<Ctx, Args, R, E>, keyOf: KeyFn<Ctx, Args, K, E>,
                                                     ctx: Ctx, args: Args)
    ensures Step(source, keyOf, None, ctx, args).applied <==> keyOf(ctx, args).Ok?
    ensures keyOf(ctx, args).Ok? ==> Step(source, keyOf, None, ctx, args).out == source(ctx, args)
  {
  }
}
