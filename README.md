# The `temporal` middleware of zundo, modelled in Dafny

zundo adds undo/redo to a zustand store. Its entry point, `temporal(config, options)` in
`src/index.ts`, builds the history store, picks the recorder, and intercepts both ways of
writing the host store:

- the **config-level `set`**, handed to the user's state creator, reads a snapshot, calls the
  host's own setter, reads a second snapshot, and calls the recorder with the first snapshot
  unless `equality(past, current)` is truthy or `diff(past, current)` is strictly `null`;
- the **`store.setState` override** reads a snapshot, calls the host's setter and always calls
  the recorder with that snapshot.

A snapshot is `partialize(state)` when `partialize` is configured and gives a truthy value,
and the full state otherwise. The recorder is `handleSet(_handleSet)` when that is truthy,
and `_handleSet` otherwise. In the same way, the history store's creator is
`wrapTemporal(creator)` when that is truthy, and `creator` otherwise.

Files:

- `wrappers.dfy`: module `Wrappers`, an `Option` that stands for a JavaScript value read
  through `||` (`None` is any falsy result).
- `zundo.dfy`: module `Zundo`.
  - The options, the fallback choice `OrElse` and its three uses, and the change gate `ShouldRecord`.
  - A value-level specification of wrapped calls: `StepRecords`, `After`, `Records`.
  - A trace of the calls each interceptor makes to the user's policies, to the host's setter
    and to the recorder: `Event`, `ConfigSetEvents`, `SetStateEvents`.
  - The class `Store`. Its fields are the host state, the chosen recorder and creator, and
    the log `recorded` of what was handed to the recorder. Its methods `ConfigSet` and
    `StoreSetState` are the two interceptors. `Valid()` ties the fields to the specification
    functions over the ghost history of calls.

How the model abstracts the source:

- The caller's arguments to a setter (partial state or updater, `replace` flag) are one
  state transformer `S -> S`. The host's setter applies it.
- `partialize` is `S -> Option<S>`. The partialized type is taken to be the state type.
- `equality` gives a `bool`.
- `diff` gives a `Delta`: `Null`, `Undefined` or `Present`. The middleware only tests for a strict `null`.
- The recorder (`H`) and the state creator (`C`) are opaque type parameters.

Three behaviours of src/index.ts worth noting:

- The `store.setState` override reads no snapshot after the setter and consults neither
  `equality` nor `diff` (src/index.ts:60-66).
- The pause flag (`isTracking`) is not checked in src/index.ts. It belongs to the recorder.
- The wrapped setters return `undefined`, not the host setter's result (src/index.ts:60-66,
  70-90). zustand's setter returns nothing, so callers cannot tell the difference.

## Model

| member | source | states |
|---|---|---|
| `Zundo.OrElse` | src/index.ts:49-56 | `hook?.(base) \|\| base`: the result is the base or the hook's own truthy answer, and a truthy answer always wins |
| `Zundo.Snapshot` | src/index.ts:63 | a snapshot is the full state or a truthy `partialize` result of that state, and the truthy `partialize` result when there is one (the same expression is at lines 73 and 75) |
| `Zundo.HistoryCreator` | src/index.ts:48-51 | the history store is built from `wrapTemporal(creator)` when that is truthy, else from `creator` |
| `Zundo.CurriedHandleSet` | src/index.ts:53-56 | the recorder is `handleSet(_handleSet)` when that is truthy, else `_handleSet` |
| `Zundo.ShouldRecord` | src/index.ts:76-86 | a truthy equality suppresses whatever the diff says; a strictly-null delta suppresses; nothing else does (an absent policy, a false equality, an `undefined` or non-null delta all let the record through); built from the helpers `DeltaOf` (`options?.diff?.(…)`, undefined when absent, line 76) and `Equal` (`options?.equality?.(…)`, line 82) |
| `Zundo.StepRecords` | src/index.ts:58-90 | one wrapped call records at most once and only the snapshot read before the setter; `store.setState` always records; the config-level `set` records exactly when the gate lets its before/after pair through |
| `Zundo.Records` | src/index.ts:58-90 | a sequence of wrapped calls never records more than once per call |
| `Zundo.UngatedRunRecordsEveryPreState` | src/index.ts:58-90 | a run of `store.setState` calls, or of any calls when neither `equality` nor `diff` is configured, records exactly one snapshot per call, and the i-th is the snapshot of the state before the i-th call, even when nothing changed |
| `Zundo.NoOptionsRecordsEveryPreState` | src/index.ts:36-39 | without an options object (`NoOptions`: every `options?.x` undefined) every call records the full state from before it |
| `Zundo.EqualRunRecordsNothing` | src/index.ts:76-89 | a run of config-level sets in which `equality` holds on each call's own before/after snapshot pair records nothing, whatever `diff` returns |
| `Zundo.ConfigSetCalls` | src/index.ts:70-90 | a config-level `set` runs the host's setter exactly once, with the caller's arguments unchanged, and the recorder receives exactly what the gate decides |
| `Zundo.ConfigSetSetterFirst` | src/index.ts:72-88 | `partialize` sees the old state before the setter and the new state after it; the policies and the recorder run only after the setter |
| `Zundo.ConfigSetDiffFirst` | src/index.ts:76-84 | `diff` is evaluated before `equality` |
| `Zundo.ConfigSetConsults` | src/index.ts:76-86 | `diff` is called if and only if configured, and `equality` likewise, even when the other already decides; both see the pre- and post-mutation snapshots |
| `Zundo.SetStateCalls` | src/index.ts:60-66 | `store.setState` runs the host's setter exactly once with the caller's arguments and records the snapshot read before it |
| `Zundo.SetStateOrder` | src/index.ts:60-66 | `store.setState` never consults `equality` or `diff`, reads no snapshot after the setter and records only after the setter ran |
| `Zundo.Store.constructor` | src/index.ts:48-56 | at composition time the history creator and the recorder are the fallback choices above, and nothing has been recorded |
| `Zundo.Store.ConfigSet` | src/index.ts:70-90 | the new state is the transformer applied to the old one; the log grows by exactly the config-level step's records; the trace, appended statement by statement, is exactly `ConfigSetEvents` (snapshot read, setter, snapshot read, `diff`, `equality`, recorder if the gate passes), so the order lemmas above hold of the method; `Valid()` is kept |
| `Zundo.Store.StoreSetState` | src/index.ts:58-66 | the new state is the transformer applied to the old one; the log grows by the pre-mutation snapshot; the trace, appended statement by statement, is exactly `SetStateEvents` (snapshot read, setter, recorder); `Valid()` is kept |
| `Zundo.UngatedStoreLog` | src/index.ts:58-90 | for a store whose every call so far was ungated, the log holds one snapshot per call, the i-th being the snapshot of the host state just before the i-th call |

## Left out

- The history engine behind `_handleSet` is not part of this model. That covers the past and
  future stacks, the limit, `isTracking`, `onSave`, undo, redo and clear. `./temporal` is not
  part of this model, so the recorder is an opaque append to the `recorded` log.
- zustand's `createStore` and the host store's internals (partial merge, the `replace` flag)
  belong to a foreign library. They are one state transformer, and the history store is
  the creator it was built from (`Store.temporal`).
- `temporalStateCreator(set, get, options)` and the resulting `_handleSet` are opaque values
  passed to the constructor. When `wrapTemporal` gives a falsy value, the source calls
  `temporalStateCreator` a second time. The model does not tell the two results apart.
- The initial state is a constructor parameter. Calls of `set` made by the user's `config`
  while it builds that state are not modelled.
- What the user's policies compute is not modelled. `partialize`, `equality`, `diff`,
  `handleSet` and `wrapTemporal` are uninterpreted function values. Exceptions they throw,
  and the content of a non-null delta, are not modelled.
- The repeated `get()` calls in `partialize?.(get()) || get()` are not in the trace. They
  read the same state.
- Type-level plumbing has no runtime behaviour and is not modelled: the `Zundo` type, the
  `StoreMutators` augmentation and the type re-exports.
