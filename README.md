# reaccoon: configuration merge and async-operation hook, in Dafny

This project models the two pieces of logic the reaccoon UI utility library
owns itself:

- **The configuration store** (`src/config.ts`). `CONFIG` is one process-wide
  object. `setConfig(partial)` folds a partial update into it with `deepMerge`
  and writes the result back in place. `getConfig()` returns it. `deepMerge`
  walks the keys of the update. Where both sides are truthy objects it
  recurses. Where the update is `undefined` it keeps the base value.
  Anything else (a function such as `onError`, a primitive, `null`, or an
  object over a falsy base) replaces the base value.
- **The `useAsync` hook** (`src/hooks/useAsync.ts`). It has three state cells:
  `status` (IDLE, PENDING, FULFILLED or REJECTED), `result` and `error`.
  Its `caller` does one of two things:
  - it refuses at once, when `rejectWhilePending` is set and the hook is PENDING;
  - or it goes PENDING, and the call later settles.

  A call that resolves stores its value and goes FULFILLED. A call that throws
  goes REJECTED. The thrown value is normalised into an `Error`, stored, and
  passed to the `onError` the configuration holds at that moment.

Module `Config` (config.dfy) holds the JavaScript values of the tree as a
datatype (`Obj`, `Func`, `Prim`, `Null`, `Undef`). `DeepMerge` is the merge as
a function; `MergeInto` is the source's loop as a method proved equal to it;
`ConfigStore` is `CONFIG` with `Set` (setConfig) and `Get` (getConfig).

Module `UseAsync` (use_async.dfy) gives the hook's transitions as a pure
function `Step` over the three cells. `Run` folds `Step` over a trace of
events. Lemmas about `Run` say what any sequence of triggers, settlements and
result writes leaves in each cell. The class `AsyncHook` holds the cells as
fields. Its methods are the parts of `caller`, the mount effect and
`setResult`. `Valid()` keeps the fields equal to `Run` of the hook's own ghost
trace, so the trace lemmas hold of every live hook. Calls of `onError` go to a
ghost log. So do the argument lists passed to the unit of work.

`UseAsync.DemoInitHook` and `UseAsync.DemoRejectionReachesOnError` replay the
demo application (tests/__test_app__/src/App.tsx:4-37) against the contracts
alone: an `init` hook that starts at mount and succeeds, then, with `onError`
configured, a second hook that rejects and reaches that `onError`.

Two behaviours of the code are worth stating plainly:

- The hook's own documentation says `error` is an "Error object if status is
  'REJECTED', undefined otherwise" (src/hooks/useAsync.ts:36), and the
  declared result type gives `error: undefined` for every other status
  (src/hooks/useAsync.ts:16-21). The code never clears `error`, and a
  rejection leaves `result` untouched. The model follows the code: `Run`,
  `ErrorIsLastRejection`, `ResultIsLastWrite` and `StaleErrorWhilePending`
  state the behaviour as written.
- A non-object update value replaces the base value outright, whatever it is.
  The hook reads `onError` through `getConfig().hooks.useAsync`
  (src/hooks/useAsync.ts:90), so after an update such as
  `{hooks: {useAsync: null}}` that read throws a TypeError inside the catch
  block on every later rejection. `NullUpdateBreaksOnError`,
  `NumberOnErrorReplacesHandler` and the `Throws` case of `SettleFailure`
  model this.

## Model

| member | source | states |
|---|---|---|
| `Config.BothObjects` | src/config.ts:46 | the guard "both truthy and typeof 'object'" holds exactly when both values are plain objects: `null`, functions and primitives never recurse |
| `Config.DeepMerge` | src/config.ts:40-53 | the merged keys are the base keys plus the update keys whose value is not `undefined`; a key absent from the update keeps its base value; an `undefined` update keeps the base value; two objects merge recursively; any other update value (function, primitive, `null`, object over a non-object) replaces the base value |
| `Config.MergeInto` | src/config.ts:40-53 | the source's loop over the update's keys, filling a copy of the base and recursing into fresh copies, computes exactly `DeepMerge(base, update)`; it has no `modifies` clause, so neither argument changes |
| `Config.AssignMerged` | src/config.ts:55 | `Object.assign(CONFIG, merged)` leaves `CONFIG` equal to the merged tree, because the merge already holds every key of its base |
| `Config.MergeEmpty` | src/config.ts:41-52 | merging an empty update returns a tree equal to the base |
| `Config.MergeSelf` | src/config.ts:42-50 | merging a tree into itself returns that tree |
| `Config.MergeIdempotent` | src/config.ts:42-50 | merging the same update twice gives the same tree as merging it once |
| `Config.Default` | src/config.ts:18-29 | the initial configuration has the declared shape, a no-op function as `onError`, and an empty Fuse.js options object |
| `Config.FittingUpdateKeepsShape` | src/config.ts:3-16 | an update whose known paths are each left out or of the declared kind keeps a well-shaped configuration well-shaped; this class of updates is stricter than `DeepPartial<Config>`, which admits any non-nullish value at `onError` |
| `Config.OnErrorHandler` | src/hooks/useAsync.ts:90 | the rejection path only ever calls the function stored at `hooks.useAsync.onError`; a missing or nullish `hooks` makes the read throw; on a well-shaped configuration it calls exactly the stored function |
| `Config.OnErrorUpdateKeepsFuseConfig` | src/config.ts:46-49 | configuring `{hooks: {useAsync: {onError: fn}}}` replaces `onError` with `fn` outright, keeps the shape, and leaves `fuseConfig` untouched |
| `Config.NullUpdateBreaksOnError` | src/config.ts:46-49 | the update `{hooks: {useAsync: null}}` replaces the `useAsync` object with `null`, after which the `onError` lookup throws |
| `Config.NumberOnErrorReplacesHandler` | src/config.ts:46-49 | a number at `onError` replaces the handler outright; afterwards a non-zero number makes the dispatch throw and zero makes it call nothing |
| `Config.ConfigStore.constructor` | src/config.ts:18-29 | the store starts with the default configuration |
| `Config.ConfigStore.Set` | src/config.ts:39-58 | setConfig replaces the store's tree, in the same store object, by the merge of the old tree with the update, and returns the new tree |
| `Config.ConfigStore.Get` | src/config.ts:34 | getConfig returns the store's current tree, so a read after `Set` sees the update |
| `UseAsync.Normalise` | src/hooks/useAsync.ts:84-87 | a thrown string `s` becomes `Error(s)`; a thrown `Error` passes through unchanged; anything else becomes `Error('UseAsync Caller Promise Rejected')` |
| `UseAsync.Step` | src/hooks/useAsync.ts:74-89 | one event of `caller` or `setResult`: a trigger or settlement leaves the status it names (a refused trigger finds PENDING and changes nothing); only a success or direct write changes the result; only a rejection changes the error, to the normalised thrown value |
| `UseAsync.Run` | src/hooks/useAsync.ts:69-107 | over any trace of events, a set error cell stays set and the hook never returns to IDLE |
| `UseAsync.StatusIsLastTransition` | src/hooks/useAsync.ts:74-88 | the status after any trace is the one written by its last trigger (PENDING, refused or not) or settlement (FULFILLED, REJECTED); with no such event it is the starting status |
| `UseAsync.ErrorIsLastRejection` | src/hooks/useAsync.ts:84-89 | the error cell after any trace holds the normalised value of the last rejection; with no rejection it keeps its starting value |
| `UseAsync.ResultIsLastWrite` | src/hooks/useAsync.ts:78-91 | the result cell after any trace holds the value of the last success or direct write; triggers and rejections never change it |
| `UseAsync.IdleUntilTriggered` | src/hooks/useAsync.ts:69-76 | a fresh hook is IDLE exactly as long as only direct result writes have happened to it |
| `UseAsync.StaleErrorWhilePending` | src/hooks/useAsync.ts:16-21 | after success, rejection and a new trigger the hook is PENDING with the old error still set and the earlier success value as result, which the declared result type does not allow |
| `UseAsync.AsyncHook.constructor` | src/hooks/useAsync.ts:69-71 | a new hook is IDLE, holds `initial` as result and no error |
| `UseAsync.AsyncHook.Trigger` | src/hooks/useAsync.ts:73-78 | while PENDING with `rejectWhilePending` it returns `Error('Cannot invoke function while status is PENDING')` and changes no cell and starts no work; otherwise it goes PENDING, keeps result and error, and starts the work with the given arguments |
| `UseAsync.AsyncHook.SettleSuccess` | src/hooks/useAsync.ts:78-81 | the result becomes the produced value, the status FULFILLED, the error is unchanged, and the value is returned |
| `UseAsync.AsyncHook.SettleFailure` | src/hooks/useAsync.ts:83-91 | the status becomes REJECTED and the error the normalised thrown value, the result is unchanged; the `onError` the store holds now is called exactly once with that error if it is truthy, and the error is returned; a broken path or a non-function handler makes the call reject with a TypeError instead |
| `UseAsync.AsyncHook.SetResult` | src/hooks/useAsync.ts:101-107 | `setResult(v)` sets only the result; status and error stay as they were |
| `UseAsync.AsyncHook.UpdateResult` | src/hooks/useAsync.ts:70 | `setResult(f)` with an updater sets the result to `f` of the current result and touches nothing else |
| `UseAsync.AsyncHook.Mount` | src/hooks/useAsync.ts:95-99 | on the first mount with `init` the trigger runs once with no arguments; otherwise, and on every later mount, nothing happens |

## Left out

- React's scheduling: each state setter is modelled as an immediate field write. The guard reads the current `status` field, not the render-time snapshot the closure captured.
- The `await` and overlapping calls: settlement is a separate method call (`SettleSuccess`, `SettleFailure`) after a started `Trigger`. The later settlement overwrites the cells, so the last settlement wins by construction. The promise itself is not modelled.
- UseAsync.AsyncHook.SettleSuccess: requires a call to be in flight (ghost counter `inFlight`), since in the source a settlement only ever follows a started call.
- UseAsync.AsyncHook.SettleFailure: requires a call to be in flight, for the same reason.
- UseAsync.AsyncHook.constructor: a function-valued `initial` is stored as it is. React's `useState` would call it as a lazy initialiser; function-valued initial values are not modelled.
- UseAsync.AsyncHook.SettleSuccess: a function-valued result is stored as it is. React's `setResult` would call it as an updater on the previous result; function-valued results are not modelled.
- The unit of work `asyncFn` and the `onError` callback are external code. The model logs the arguments passed to the work and each `onError` call. An `onError` that itself throws is not modelled.
- Object identity and aliasing: values are immutable trees. `deepMerge` sharing untouched nested objects with `CONFIG` is not captured. Neither is the fact that a caller holding a nested object such as `getConfig().hooks` keeps the old one after a merge replaces it. The `Error` that passes through normalisation is "the same object" only as an equal value.
- Prototype properties: `for…in` over inherited enumerable keys, and reads of inherited properties such as `toString`, are not modelled. Neither are arrays, which `{ ...base }` spreads into plain objects. Property reads on functions and primitives (`Config.Member`) give `undefined`. That is right for the configuration's own keys only.
- Numbers are Dafny reals: `NaN`, `-0` and infinities are not modelled.
- src/hooks/useFilter.ts: all matching is done by Fuse.js, which is not part of this model. The `fuseConfig` options stay opaque values in the tree.
- docs/media/Flex.tsx: the layout translation lives in a `./utils` file that is not part of this model. The rest is UI rendering.
- src/index.ts and src/types/types.ts: a re-export (`configure: setConfig`) and type-level declarations with no runtime logic.
- The demo application's DOM writes and timers. `UseAsync.DemoInitHook` and `UseAsync.DemoRejectionReachesOnError` replay only its sequence of hook events.
