# func_remember and func_catch, modelled in Dafny

This project models two function combinators from `util/src/func.ts`:

- `func_remember` wraps a function so that its result is cached. It keeps one
  cache cell, either `undefined` or a record `{key, res}`. On every call it
  derives a key with the optional key function. The wrapped function runs only
  when the cell is empty or the new key is strictly unequal to the cached one.
  A successful run replaces key and result together. The cache keeps only the
  last record, so a key that comes back after another key runs the source
  again; `Remember.OneSlotCache` shows this. The wrapper also exposes
  the getters `source`, `key`, `runned` and `returnValue`, plus `reset` and
  `rerun`.
- `func_catch`, on its synchronous path, turns a function's normal return into
  `[undefined, res]` and a throw into `[errorParser(err), undefined]`.
  `catchType` rebuilds the wrapper over the same function with another error
  parser.

Layout:

- `outcomes.dfy` (module `Outcomes`): `Option` for JavaScript's
  `undefined`-or-value, and `Outcome` (`Ok(value)` | `Throw(error)`) for what a
  JavaScript call ends in.
- `remember.dfy` (module `Remember`):
  - `Step` is one call as a pure function. It returns the outcome, the new
    cell, and whether the source ran.
  - `Run` folds `Step` over a sequence of calls and counts how often the
    source ran.
  - `Direct` is the unmemoized call that the wrapper stands for.
  - The class `Remembered` holds the mutable cell (`cached`) and two ghost
    counters: how often the source ran and how often the key function ran.
    `Call` and `Rerun` are proved to agree with `Step`; `Reset` is proved to
    empty the cell and to apply no function.
  - The calling context `this` is an explicit `Ctx` argument. The wrapper
    also holds the `Ctx` value `undefinedThis`, which stands for `this`
    being `undefined` in a plain function call.
  - A missing key function is `NoKey()`, which always derives the key
    `Undefined`.
- `catch.dfy` (module `Catch`): the wrapper as a datatype, `Invoke` for calling
  it, and `CatchType`.

## Model

| member | source | states |
|---|---|---|
| `Remember.Step` | util/src/func.ts:70-77 | one call: a successful call leaves the cell holding the result it returned; a throw leaves the cell as it was; a call that does not run the source leaves the cell as it was; a throw of the key function is the call's outcome and the source does not run |
| `Remember.NoKey` | util/src/func.ts:70 | without a key function the derived key never throws and is the same for every `this` and arguments |
| `Remember.Remembered.constructor` | util/src/func.ts:57-64 | the wrapper keeps the given source and key function and starts with an empty cell, so neither function has run yet |
| `Remember.Remembered.Key` | util/src/func.ts:85-87 | `key` is defined exactly when `returnValue` is, and is then the key of the cached record |
| `Remember.Remembered.Call` | util/src/func.ts:66-78 | the key function runs on every call. The new cell, the outcome and the source-run count are those of `Step`. A successful call leaves `runned` true, with `returnValue` equal to the returned value and `key` equal to the derived key. A throw leaves the cell unchanged |
| `Remember.Remembered.Runned` | util/src/func.ts:85-93 | `runned` holds exactly when `key` and `returnValue` are both defined, because key and result live and die together in one record |
| `Remember.Remembered.Reset` | util/src/func.ts:94-96 | after `reset`, `runned` is false and `key` and `returnValue` are undefined. No function is applied |
| `Remember.Remembered.Rerun` | util/src/func.ts:97-100 | `rerun` is a plain call, with `this` undefined, on an emptied cell. The source runs exactly once whenever the key function succeeds, and its value becomes `returnValue` |
| `Remember.RecomputesIff` | util/src/func.ts:70-71 | the source runs if and only if the key function returns and the cell is empty or holds a different key |
| `Remember.EmptyCellComputes` | util/src/func.ts:71-77 | on an empty cell, a call whose key is `k` and whose source returns `r` returns `r` and stores `(k, r)` |
| `Remember.SameKeyHits` | util/src/func.ts:71-77 | a call whose key equals the cached key returns the cached result, does not run the source, and keeps the cell |
| `Remember.NewKeyReplacesPair` | util/src/func.ts:71-77 | a call with a different key whose source returns `r` replaces key and result together and returns `r` |
| `Remember.ThrowKeepsCell` | util/src/func.ts:70-75 | a throw from the key function or from the source propagates and leaves the cell exactly as it was. A throw from the key function also means the source does not run. A source that throws on a miss makes the call throw that same error, with the cell unchanged |
| `Remember.OkCallFillsCell` | util/src/func.ts:72-77 | after any successful call, the cell holds the key derived by that call and the result it returned |
| `Remember.ResetForcesRecompute` | util/src/func.ts:94-99 | from an empty cell, the source runs whenever the key function returns, and the call answers what the source answers |
| `Remember.Run` | util/src/func.ts:66-78 | a sequence of calls yields one outcome per call, and the source runs at most once per call |
| `Remember.HitsWhileKeyUnchanged` | util/src/func.ts:71-77 | as long as every derived key equals the cached key, the source never runs, every call returns the cached result, and the cell is unchanged |
| `Remember.ConstantKeyComputesOnce` | util/src/func.ts:70-77 | with a constant key, starting from an empty cell, when the first call's source succeeds, the source runs exactly once and every call returns the first call's result |
| `Remember.NoKeyComputesOnce` | util/src/func.ts:70-71 | without a key function, when the first call's source succeeds, the source runs exactly once, and every later call returns the first result whatever its arguments |
| `Remember.SourceCallsCountKeyChanges` | util/src/func.ts:70-77 | when every call of the sequence returns normally, the number of source runs is the number of calls whose key differs from the key just before (the cached key before the first call) |
| `Remember.NoThrowRunsOk` | util/src/func.ts:70-77 | when neither the key function nor the source throws on any call's arguments, every call of the sequence returns normally |
| `Remember.OneSlotCache` | util/src/func.ts:61-75 | only the last key is remembered: keys `a, b, a` run the source three times |
| `Remember.StepTransparent` | util/src/func.ts:66-78 | when the key determines the source's outcome, a call answers what the unmemoized call answers, and the cell keeps a result that agrees with the source |
| `Remember.RunTransparent` | util/src/func.ts:66-78 | when the key determines the source's outcome, every call in a sequence answers what the unmemoized call answers: the cache is invisible |
| `Remember.ParityScenario` | util/src/func.ts:70-77 | with `source(n) = 2n` and `key(n) = n % 2` for `n >= 0`, the calls `1, 3, 2` return `2`, then `2` (stale), then `4`, and the source runs twice |
| `Catch.Invoke` | util/src/func.ts:192-204 | exactly one slot of the pair is defined. The error slot is defined exactly when the function throws. Reading the pair back gives the function's outcome with its error parsed |
| `Catch.NoParserRoundTrip` | util/src/func.ts:201-203 | without a parser, catching and then rethrowing gives back exactly the function's own outcome |
| `Catch.CatchType` | util/src/func.ts:206-208 | `catchType` returns the same values as the old wrapper. Its errors go through the new parser alone, not composed with the old one |

## Left out

- `src/ag.ts` is not part of this model. Its generator-draining helpers are asynchronous loops, and `AGF` is a runtime constructor lookup.
- The promise branch of `func_catch` (util/src/func.ts:195-200) is not modelled. It depends on `isPromiseLike` from `util/src/promise.ts`, which is not part of this model, and on asynchronous `.then` continuations.
- `uncurryThisFn`, `curryThisFn`, `func_wrap`, `extendsMethod` and `extendsGetter` are left out. They only shuffle arguments or define properties and state nothing to prove.
- The `Object.assign` / `Object.defineProperties` decoration is left out. The getters are plain functions of the cell: `Runned`, `Key` and `ReturnValue`. The `source` getter is the constant field `source`.
- The type-level declarations (`Func`, `FuncRemember`, `FuncCatchReturn`, `FuncCatchWrapper`, `PrototypeToThis`) are not modelled.
- Keys are compared with Dafny equality. JavaScript's `!==` differs on `NaN`, which is never equal to itself. Objects compare by identity.
- The source and the key function are pure functions whose outcome is a value or a throw. Any other side effect they have is not modelled. The ghost counters record how often each was applied.
- Re-entrancy is not modelled: a source that calls the same remembered function while running. In JavaScript the outer call's assignment would overwrite the cell written by the inner one.
- `Remember.Remembered.Runned`: the getters `key` and `returnValue` return `Option`. So a populated cell whose key or result is the value `undefined` reads as `Some(Undefined)`, where JavaScript cannot tell it from an empty cell. `runned` itself is exact.
- `Remember.Remembered.Key`: for the same reason, a cached key that is `undefined` reads as `Some(Undefined)` rather than `undefined`.
- The getter `returnValue` (`Remember.Remembered.ReturnValue`) returns `Option` too, so a cached result that is `undefined` reads as `Some(..)` rather than `undefined`.
- `Catch.Invoke`: the slots of the pair are `Option`s, so "exactly one slot defined" and "the error slot is defined exactly when the function throws" hold of the model but not always in JavaScript. When the function returns `undefined`, JavaScript's pair is `[undefined, undefined]`, while the model has `Some` in the value slot. When the function throws `undefined`, or the error parser returns `undefined`, JavaScript's pair is again `[undefined, undefined]`, while the model has `Some` in the error slot.
- `Catch.Invoke`: the error parser is total, so the model leaves out a parser that throws. In JavaScript that throw would escape the `catch` block.
