# redux-model core in Dafny

This project models two parts of the redux-model state-container engine and one of its test fixtures.

- **The store helper** (`StoreHelper.dfy`) owns the table of slice reducers. It builds the root reducer, which runs every slice reducer and detects a change by comparing references (`!==`). It hands a changed root state to persistence. Around a pass it flips the `dispatching`/`state` pair that `getState` reads. `createStore` orders `rehydrate` around store creation or reducer replacement; `appendReducers` replaces the reducer without calling `rehydrate`.
  - Slice values are `SliceRef` values: equal here exactly when `===` in JavaScript.
  - A root state object is a `StateObject`, so "the same object" and "a fresh object" are told apart by reference and `fresh`.
  - The redux store is `Option<ReduxStore>`: the combined reducer it runs and the root state it holds.
  - Five kinds of call are appended, in order, to one event log, `log`: persistence's `setConfig`, `rehydrate` and `update`, and redux's `createStore` and `replaceReducer`. `dispatch`, `getState` and persistence's `listenOnce` are not logged.
- **Module bookkeeping** (`BaseModel.dfy`) covers a model's instance name and its `sequenceCounter`. It also covers the numbered names of the actions it declares, and `register`, which clears and rebuilds the case table and returns the reducer map. Finally it covers `connectData` and `isLoading`.
- **The request fixture** (`RequestModel.dfy`) holds the fixture's initial data and the `getProfile` / `getProfileById` hooks. Each hook is an in-place edit of a draft (`ProfileDraft`), specified by a pure function on the data. `NewRequestModel` instantiates the generic model with this fixture.

`Wrappers.dfy` holds `Option` and `Result`.

During a pass, `getState` returns the *incoming* state object (StoreHelper.ts:124 and 141), not the state being built.

## Model

| member | source | states |
|---|---|---|
| `StoreHelper.Helper.constructor` | packages/core/src/stores/StoreHelper.ts:36-48 | the table is empty, there is no store, `dispatching` is false and the dispatch state is `{}` |
| `StoreHelper.Helper.Store` | packages/core/src/stores/StoreHelper.ts:107-113 | the `store` getter fails with StoreNotFoundError exactly when no store was created, and otherwise yields the store |
| `StoreHelper.Helper.GetState` | packages/core/src/stores/StoreHelper.ts:123-125 | while dispatching it yields the dispatch state; otherwise the store's state, or StoreNotFoundError when there is no store |
| `StoreHelper.Helper.CombineReducers` | packages/core/src/stores/StoreHelper.ts:131-133 | the combined reducer's key snapshot lists exactly the table's keys, without duplicates, in the table's `Object.keys` (insertion) order |
| `StoreHelper.Helper.BeginPass` | packages/core/src/stores/StoreHelper.ts:140-141 | after entering a pass, `getState` yields the incoming state object |
| `StoreHelper.Helper.EndPass` | packages/core/src/stores/StoreHelper.ts:162-163 | after a pass, `dispatching` is false and the dispatch state is a fresh `{}` |
| `StoreHelper.Helper.Reduce` | packages/core/src/stores/StoreHelper.ts:135-166 | undefined is read as `{}`. When changed, the result is a fresh object mapping each registered key to its reducer's output; otherwise it is the incoming object itself. Persistence gets exactly one `update(nextState, action.type == persist type)` iff changed. `getState` yields the incoming state throughout, and afterwards `dispatching` is false and the dispatch state is `{}` |
| `StoreHelper.NextEntries` | packages/core/src/stores/StoreHelper.ts:143-154 | the object the pass builds: each snapshot key mapped to its reducer's output on the previous slice (defined without a contract; `NextEntriesAt` and `PassContentsIsNext` state its keys and values) |
| `StoreHelper.SliceChanged` | packages/core/src/stores/StoreHelper.ts:149-153 | one slice's new value is not `===` the previous one (defined without a contract; `AnySliceChangedIff` uses it) |
| `StoreHelper.AnySliceChanged` | packages/core/src/stores/StoreHelper.ts:144-154 | the `hasChanged` flag the loop accumulates (defined without a contract; `AnySliceChangedIff` states it holds iff some slice changed) |
| `StoreHelper.HasChanged` | packages/core/src/stores/StoreHelper.ts:144-156 | the final `hasChanged`: some slice changed or the key counts differ (defined without a contract; `UnchangedIff` and `UndefinedStateChanges` describe it) |
| `StoreHelper.PassContents` | packages/core/src/stores/StoreHelper.ts:165 | the contents of the object the pass returns: the built object when changed, the incoming one otherwise (defined without a contract; `PassContentsIsNext` and `UnchangedMeansSameContents` show both are the reducers' outputs) |
| `StoreHelper.PassEvents` | packages/core/src/stores/StoreHelper.ts:158-160 | the persistence calls of one pass: a single `update` with the built state and the persist-action test when changed, none otherwise (defined without a contract; `UndefinedStateChanges` and `Reduce` use it) |
| `StoreHelper.NextEntriesAt` | packages/core/src/stores/StoreHelper.ts:143-154 | the object the pass builds has exactly the registered keys, each mapped to that key's reducer applied to the previous slice |
| `StoreHelper.AnySliceChangedIff` | packages/core/src/stores/StoreHelper.ts:146-154 | the flag the loop accumulates is set iff some registered slice is no longer `===` to its predecessor |
| `StoreHelper.UnchangedIff` | packages/core/src/stores/StoreHelper.ts:146-165 | no change is reported iff the key counts agree and every registered reducer returns the very slice it was given (both directions) |
| `StoreHelper.UnchangedMeansSameContents` | packages/core/src/stores/StoreHelper.ts:146-165 | when no change is reported, the incoming state holds exactly the registered keys and equals the object the pass built |
| `StoreHelper.PassContentsIsNext` | packages/core/src/stores/StoreHelper.ts:143-165 | whichever object the pass returns, its contents are exactly each registered reducer's output |
| `StoreHelper.UndefinedStateChanges` | packages/core/src/stores/StoreHelper.ts:136-156 | an undefined state, read as `{}`, makes any non-empty table report a change and call persistence, whatever the persistence action type |
| `StoreHelper.MergedTable` | packages/core/src/stores/StoreHelper.ts:69-71 | the table after copying the configured reducers in order (defined without a contract; `MergedTableKeys` and `MergedTableAt` state its keys and values) |
| `StoreHelper.MergedOrder` | packages/core/src/stores/StoreHelper.ts:69-71 | the table's `Object.keys` order after the copy: new keys appended once, in order (defined without a contract; `MergedOrderAt` states its properties) |
| `StoreHelper.MergedTableKeys` | packages/core/src/stores/StoreHelper.ts:69-71 | after copying the configured reducers, the table holds the old keys plus every configured key, and unconfigured keys keep their reducer |
| `StoreHelper.MergedTableAt` | packages/core/src/stores/StoreHelper.ts:69-71 | every configured key holds the reducer it was configured with |
| `StoreHelper.MergedOrderAt` | packages/core/src/stores/StoreHelper.ts:69-71 | the table's key order stays duplicate-free, keeps the old keys first and lists exactly old and configured keys |
| `StoreHelper.Helper.CopyReducers` | packages/core/src/stores/StoreHelper.ts:69-71 | the loop leaves the table and its key order equal to the merge of the old table with the configured reducers; the store, the log, `dispatching` and the dispatch state are untouched |
| `StoreHelper.Helper.CreateStore` | packages/core/src/stores/StoreHelper.ts:50-91 | the configured reducers are merged into the table and the persist configuration is recorded. With a store, `rehydrate` is called before `replaceReducer` (and the pass it triggers); without one, the store is created (and its first pass run) before `rehydrate`. Either way the result is the store, running the current key snapshot. Its root state is the REPLACE pass over the old store's state, or the INIT pass over the preloaded state, and afterwards `dispatching` is false and the dispatch state is `{}` |
| `StoreHelper.Helper.AppendReducers` | packages/core/src/stores/StoreHelper.ts:93-105 | only the first key is used, and an empty argument or empty key changes nothing. The reducer is always stored. `replaceReducer` runs iff the key is new and a store exists; then the store's root state is the REPLACE pass over its old state and `dispatching` ends false with a `{}` dispatch state. Otherwise the store, the log, `dispatching` and the dispatch state are untouched |
| `StoreHelper.Helper.Dispatch` | packages/core/src/stores/StoreHelper.ts:119-121 | without a store, StoreNotFoundError and nothing changes, `dispatching` and the dispatch state included; with one, the store's state becomes the result of one pass, `getState` then yields it, and the action is returned |
| `StoreHelper.Helper.ReplaceReducer` | packages/core/src/stores/StoreHelper.ts:102 | the store runs the new combined reducer and holds the REPLACE pass over its old state; the replacement is logged before the pass it triggers; afterwards `dispatching` is false and the dispatch state is `{}` |
| `StoreHelper.Helper.CreateReduxStore` | packages/core/src/stores/StoreHelper.ts:82-86 | the store is created with the combined reducer, and its state is the first pass over the preloaded state; afterwards `dispatching` is false and the dispatch state is `{}` |
| `StoreHelper.Helper.RehydrateThenReplace` | packages/core/src/stores/StoreHelper.ts:77-80 | with a store, `rehydrate` is logged before the reducer swap and its REPLACE pass, whose result the store holds |
| `StoreHelper.Helper.CreateThenRehydrate` | packages/core/src/stores/StoreHelper.ts:81-88 | without a store, the store is created and its INIT pass logged before `rehydrate`; the store holds that pass's result |
| `BaseModel.InstanceName` | src/core/BaseModel.ts:47 | the instance name is the class name when `name` is empty; otherwise it is longer by the name and two brackets |
| `BaseModel.InstanceNameShape` | src/core/BaseModel.ts:47 | a non-empty name appears in square brackets in front of the class name |
| `BaseModel.InstanceNameInjective` | src/core/BaseModel.ts:47 | different names given to instances of one class give different instance names |
| `BaseModel.NatToString` | src/core/BaseModel.ts:128 | the counter's decimal text: at least one character, all decimal digits, and no leading zero unless the counter is 0 |
| `BaseModel.ActionName` | src/core/BaseModel.ts:125-129 | an action's name is the instance name, a dot and the counter's decimal text (defined without a contract; `ActionNameInjective` states its properties) |
| `BaseModel.NameFor` | src/core/BaseModel.ts:125-129 | an action's name given the counter value it carries: the bare instance name when none (debug+proxy mode), else the numbered name (defined without a contract; `Valid`, `Declare` and `NumberedNamesDistinct` use it) |
| `BaseModel.ParseNatToString` | src/core/BaseModel.ts:128 | the decimal text appended to an action name reads back as the counter value |
| `BaseModel.ActionNameInjective` | src/core/BaseModel.ts:125-133 | two numbered names of one model are equal iff their counters are, and no numbered name is the bare instance name |
| `BaseModel.IsLoading` | src/core/BaseModel.ts:34-36 | true iff some given flag is true |
| `BaseModel.CollectedReducers` | src/core/BaseModel.ts:78-82 | the reducer map `register` accumulates: the actions' reducer maps merged left to right (defined without a contract; `CollectedReducersKeys` and `CollectedReducersAt` state its keys and values) |
| `BaseModel.CollectedReducersKeys` | src/core/BaseModel.ts:78-82 | a key is in the union of the actions' reducer maps iff some action contributes it |
| `BaseModel.CollectedReducersAt` | src/core/BaseModel.ts:78-82 | a key holds the reducer of the last action contributing it (later keys override earlier ones) |
| `BaseModel.CollectedCases` | src/core/BaseModel.ts:78-86 | the cases that `register` adds: every action's effects concatenated in declaration order (defined without a contract; `Register` states it fills the case table) |
| `BaseModel.CaseReducer.Clear` | src/core/BaseModel.ts:74-76 | clearing leaves the case table empty |
| `BaseModel.CaseReducer.AddCase` | src/core/BaseModel.ts:84-86 | adding cases appends them to the case table |
| `BaseModel.CaseReducer.CreateData` | src/core/BaseModel.ts:91-94 | the data reducer map has the reducer's name as its only key |
| `BaseModel.Model.constructor` | src/core/BaseModel.ts:46-53 | the instance name is `[name]` + class name (just the class name when `name` is empty), and a reducer exists iff `initReducer()` returned non-null |
| `BaseModel.Model.Declare` | src/core/BaseModel.ts:125-133 | outside debug+proxy mode the counter grows by exactly one and the action is named `instanceName.counter`. In debug+proxy mode the counter is unchanged and the name is the bare instance name. Either way exactly one action is appended. The counter value the name carries (or none) is recorded beside the action |
| `BaseModel.Model.ActionNormal` | src/core/BaseModel.ts:122-135 | a normal action with the given configuration is declared as `Declare` states |
| `BaseModel.Model.ActionRequest` | src/core/BaseModel.ts:153-166 | a request action with the given configuration is declared as `Declare` states |
| `BaseModel.NumberedNamesDistinct` | src/core/BaseModel.ts:156-164 | any two actions declared outside debug+proxy mode have different names, and neither is the bare instance name |
| `BaseModel.Model.Register` | src/core/BaseModel.ts:71-98 | the result is the left-to-right union of the actions' reducer maps, with the data reducer merged last when a reducer exists. The case table becomes every action's effects followed by the model's own, whatever it held before |
| `BaseModel.Model.RegisterTwice` | src/core/BaseModel.ts:74-90 | registering twice returns equal reducer maps and leaves the same case table |
| `BaseModel.Model.ConnectData` | src/core/BaseModel.ts:112-118 | with a reducer, the root state's value under the reducer's name; without one, a ReferenceError with the source's message |
| `RequestModel.InitReducer` | tests/models/RequestModel.ts:95-101 | the initial data: id 1, name 'init-name', no age and no records (defined without a contract; `GetProfileLifecycleFromInit` and `GetProfileByIdFromInit` start from it) |
| `RequestModel.GetProfilePrepare` | tests/models/RequestModel.ts:27-32 | id becomes 666 and name 'iPhone'; age and records are untouched |
| `RequestModel.GetProfileSuccess` | tests/models/RequestModel.ts:33-35 | every field the response carries overwrites the data; records are untouched |
| `RequestModel.GetProfileFail` | tests/models/RequestModel.ts:36-41 | id becomes 1000 and name 'nokia'; age and records are untouched |
| `RequestModel.GetProfileByIdSuccess` | tests/models/RequestModel.ts:72-74 | `records[payload.id]` becomes the response; other records and top-level fields are unchanged |
| `RequestModel.ProfileDraft.constructor` | tests/models/RequestModel.ts:27-41 | the draft a hook receives holds exactly the data it was made from |
| `RequestModel.ProfileDraft.GetProfileOnPrepare` | tests/models/RequestModel.ts:27-32 | the in-place edit yields `GetProfilePrepare` of the draft before |
| `RequestModel.ProfileDraft.GetProfileOnSuccess` | tests/models/RequestModel.ts:33-35 | the in-place edit yields `GetProfileSuccess` of the draft before |
| `RequestModel.ProfileDraft.GetProfileOnFail` | tests/models/RequestModel.ts:36-41 | the in-place edit yields `GetProfileFail` of the draft before |
| `RequestModel.ProfileDraft.GetProfileByIdOnSuccess` | tests/models/RequestModel.ts:72-74 | the in-place edit yields `GetProfileByIdSuccess` of the draft before |
| `RequestModel.SettlingOverridesPrepare` | tests/models/RequestModel.ts:27-41 | success or failure after the pending phase gives the same data as without it |
| `RequestModel.FullResponseReplacesProfile` | tests/models/RequestModel.ts:33-35 | a response carrying every field replaces the whole profile except the records |
| `RequestModel.ByIdSuccessesCommute` | tests/models/RequestModel.ts:72-75 | responses stored under different ids do not interfere, whatever order they settle in |
| `RequestModel.ByIdLastSettledWins` | tests/models/RequestModel.ts:72-75 | of two responses under one id, the one that settles last is kept |
| `RequestModel.GetProfileLifecycleFromInit` | tests/models/RequestModel.ts:95-101 | from the initial data `{id: 1, name: 'init-name', records: {}}`: pending gives 666/'iPhone', then success gives the response's fields, or failure gives 1000/'nokia', with records still empty |
| `RequestModel.GetProfileByIdFromInit` | tests/models/RequestModel.ts:72-74 | from the initial data, a successful fetch by id fills exactly that record |
| `RequestModel.NewRequestModel` | tests/models/RequestModel.ts:20-85 | the fixture has a fresh reducer with the initial data, the given reducer name and an empty case table, and no own effects. Its `connectData` returns the slice under that reducer name, or nothing when the root state lacks it. Outside debug+proxy mode the counter values 1 to 5 are recorded beside the actions. Its five request actions, in field order, are named `RequestModel.1` to `.5` (with an instance name, `[name]RequestModel.1` to `.5`), or all carry the bare instance name in debug+proxy mode |
| `RequestModel.DefaultNames` | src/core/BaseModel.ts:47 | the fixture without an instance name is `RequestModel`, its first action `RequestModel.1` |

## Left out

- The deprecated `onCombineReducers` wrapper and its console warning (StoreHelper.ts:64-67, 168-170): the model assumes it is absent.
- Store enhancement is not modelled: the `compose` choice, middleware and the devtools lookup on `window` (StoreHelper.ts:52-61, 85). A dispatch goes straight to the reducer.
- Redux itself is reduced to the reducer it runs and the state it holds. Creating the store and replacing its reducer each run one pass, with an action that is a constructor constant (redux randomises its type). Listeners and redux's guard against dispatching from inside a reducer are not modelled.
- The value of the persistence action type is not part of this model; it is a constructor constant.
- `Persist` internals are recorded as calls in the log and not otherwise modelled: storage, debouncing, the asynchronous `rehydrate`, and `listenOnce` / `onCreated`.
- `StoreHelper.Helper.Reduce`: slice reducers are assumed never to throw. The pass at StoreHelper.ts:140-163 has no `try`/`finally`, so a throwing reducer would leave `dispatching` set and the incoming object as the dispatch state, skip `persist.update`, and make `getState` keep returning that object (even before any store exists, when it would otherwise throw StoreNotFoundError). The model does not capture that stuck state. Slice reducers are also assumed never to return `undefined`, which redux forbids. The source would compare such a result with `!==` (StoreHelper.ts:150-153), so a pass could report no change yet return a state without that key.
- Slice reducers are pure functions of the previous slice and the action. A reducer that itself calls `getState` is not modelled. What `getState` would return during the pass is stated by `BeginPass` and kept by `Reduce`'s loop.
- A reducer object argument is a sequence of key/reducer pairs whose keys are required to be distinct (`UniqueKeys`), as the keys of a JavaScript object are.
- `Object.keys` lists integer-like keys in ascending order before other keys. The model keeps plain insertion order.
- BaseModel's Proxy / hot-module wrapping (BaseModel.ts:56-68) is not modelled. `isDebug()` and `isProxyEnable()` are boolean parameters.
- Not modelled: `useData` and `switchReduxSelector` (UI binding), `emit`, `actionThunk`, the HTTP helpers `get`/`post`/`put`/`delete` and `getMiddlewareName`.
- `BaseReducer`, `NormalAction` and `RequestAction` are not part of this model.
  - `CaseReducer` stands in for `BaseReducer`: a case table plus `clear`, `addCase` and `createData`.
  - The reducer's name is a constructor argument, not derived from the instance name.
  - An action's `collectReducers()` and `collectEffects()` are given data in its `ActionConfig`.
  - `effects()` is a constructor argument.
- The meta-key fan-out and the loading/error bookkeeping of request actions belong to the request executor, which is not part of this model. So does last-settled-wins ordering across concurrent requests. Only the individual hooks are modelled, as ordinary sequential calls.
- In the fixture, not modelled: the `fetch` bodies, `$api`, timeouts, `orphanGetRequest`, and the hook-less actions' configurations.
  - `NewRequestModel` declares the five fixture actions through `actionRequest`. The fixture's base class (`BaseTestModel`), whose `action` it calls, is not part of this model.
- `records` is keyed by the numeric id. JavaScript turns it into a string key, which is injective on integers, and the model keeps the number.
- A response is the three declared fields `id`, `name` and an optional `age`. Further fields that `Object.assign` would copy are not modelled.
- `BaseModel.NatToString`: counter values are written in plain decimal for every size. JavaScript switches to exponent notation at 10^21, which no counter reaches.
