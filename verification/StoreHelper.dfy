/**
 * The store helper: the table of slice reducers, the root reducer that combines
 * them with shallow change detection, and the order in which the store, the
 * reducer swap and persistence rehydration happen.
 *
 * The redux store is represented by what this helper observes of it: the
 * combined reducer it currently runs and the root state it holds. The calls on
 * persistence (`setConfig`, `rehydrate`, `update`) and redux's `createStore` and
 * `replaceReducer` are recorded, in order, in a log.
 */
module StoreHelper {
  import opened Wrappers

  /** A slice name: a key of the root state and of the reducer table. */
  type Key = string

  /** The identity of a slice value: two slice values are `===` exactly when equal here. */
  datatype SliceRef = SliceRef(address: nat)

  /** A dispatched action; the payload is opaque to the store helper. */
  datatype Action = Action(actionType: string, payload: seq<int>)

  /** A slice reducer: the previous slice (absent when undefined) and the action give the next slice. */
  type Reducer = (Option<SliceRef>, Action) -> SliceRef

  /** A root state object. Its identity is the object's; its contents are `entries`. */
  class StateObject {
    var entries: map<Key, SliceRef>

    constructor (entries: map<Key, SliceRef>)
      ensures this.entries == entries
    {
      this.entries := entries;
    }
  }

  /** The `persist` part of the store configuration (the storage engine is not modelled). */
  datatype PersistConfig = PersistConfig(version: string, storageKey: string, allowlist: seq<Key>)

  /** The logged calls: persistence's `setConfig`, `rehydrate` and `update`, and redux's `createStore` and `replaceReducer`. */
  datatype Event =
    | PersistSetConfig(config: Option<PersistConfig>)
    | PersistRehydrate
    | PersistUpdate(nextState: map<Key, SliceRef>, isPersistAction: bool)
    | StoreCreated(reducerKeys: seq<Key>)
    | ReducerReplaced(reducerKeys: seq<Key>)

  datatype StoreError = StoreNotFoundError

  /** A combined reducer: the snapshot of the table's keys taken when it was built. */
  datatype Combined = Combined(reducerKeys: seq<Key>)

  /** What the helper sees of the redux store: its current reducer and its current root state. */
  datatype ReduxStore = ReduxStore(combined: Combined, state: StateObject)

  ghost predicate Distinct<T>(s: seq<T>)
  {
    forall i, j :: 0 <= i < j < |s| ==> s[i] != s[j]
  }

  function KeySet(s: seq<Key>): set<Key>
  {
    set k | k in s
  }

  /** `m[k]` in JavaScript: the value, or undefined. */
  function Lookup(m: map<Key, SliceRef>, k: Key): Option<SliceRef>
  {
    if k in m then Some(m[k]) else None
  }

  function EntriesOf(s: StateObject?): map<Key, SliceRef>
    reads s
  {
    if s == null then map[] else s.entries
  }

  ghost predicate Covers(keys: seq<Key>, reducers: map<Key, Reducer>)
  {
    forall k :: k in keys ==> k in reducers
  }

  // ---------------------------------------------------------------------------
  // Specification of one pass of the combined reducer
  // ---------------------------------------------------------------------------

  /** The object the pass builds: each key mapped to its reducer's output on the previous slice. */
  ghost function NextEntries(keys: seq<Key>, reducers: map<Key, Reducer>, prev: map<Key, SliceRef>, action: Action): map<Key, SliceRef>
    requires Covers(keys, reducers)
    decreases |keys|
  {
    if keys == [] then map[]
    else
      var k := keys[|keys| - 1];
      assert Covers(keys[..|keys| - 1], reducers) by {
        forall j | j in keys[..|keys| - 1] ensures j in reducers { assert j in keys; }
      }
      NextEntries(keys[..|keys| - 1], reducers, prev, action)[k := reducers[k](Lookup(prev, k), action)]
  }

  /** The slice under `k` is no longer `===` to the previous one. */
  ghost predicate SliceChanged(k: Key, reducers: map<Key, Reducer>, prev: map<Key, SliceRef>, action: Action)
    requires k in reducers
  {
    Some(reducers[k](Lookup(prev, k), action)) != Lookup(prev, k)
  }

  /** The `hasChanged` flag accumulated by the loop over `keys`. */
  ghost function AnySliceChanged(keys: seq<Key>, reducers: map<Key, Reducer>, prev: map<Key, SliceRef>, action: Action): bool
    requires Covers(keys, reducers)
    decreases |keys|
  {
    if keys == [] then false
    else
      assert Covers(keys[..|keys| - 1], reducers) by {
        forall j | j in keys[..|keys| - 1] ensures j in reducers { assert j in keys; }
      }
      AnySliceChanged(keys[..|keys| - 1], reducers, prev, action) || SliceChanged(keys[|keys| - 1], reducers, prev, action)
  }

  /** The final `hasChanged`: some slice changed, or the key counts differ. */
  ghost predicate HasChanged(keys: seq<Key>, reducers: map<Key, Reducer>, prev: map<Key, SliceRef>, action: Action)
    requires Covers(keys, reducers)
  {
    AnySliceChanged(keys, reducers, prev, action) || |keys| != |prev|
  }

  /** The contents of the object the pass returns. */
  ghost function PassContents(keys: seq<Key>, reducers: map<Key, Reducer>, prev: map<Key, SliceRef>, action: Action): map<Key, SliceRef>
    requires Covers(keys, reducers)
  {
    if HasChanged(keys, reducers, prev, action) then NextEntries(keys, reducers, prev, action) else prev
  }

  /** The persistence calls one pass makes. */
  ghost function PassEvents(keys: seq<Key>, reducers: map<Key, Reducer>, prev: map<Key, SliceRef>, action: Action, persistType: string): seq<Event>
    requires Covers(keys, reducers)
  {
    if HasChanged(keys, reducers, prev, action)
    then [PersistUpdate(NextEntries(keys, reducers, prev, action), action.actionType == persistType)]
    else []
  }

  // ---------------------------------------------------------------------------
  // Properties of a pass
  // ---------------------------------------------------------------------------

  /** The built object has exactly the registered keys, each mapped to its reducer's output. */
  lemma {:induction false} NextEntriesAt(keys: seq<Key>, reducers: map<Key, Reducer>, prev: map<Key, SliceRef>, action: Action)
    requires Covers(keys, reducers)
    ensures NextEntries(keys, reducers, prev, action).Keys == KeySet(keys)
    ensures forall k :: k in keys ==> NextEntries(keys, reducers, prev, action)[k] == reducers[k](Lookup(prev, k), action)
    decreases |keys|
  {
    if keys != [] {
      var init := keys[..|keys| - 1];
      assert Covers(init, reducers) by {
        forall j | j in init ensures j in reducers { assert j in keys; }
      }
      NextEntriesAt(init, reducers, prev, action);
      assert keys == init + [keys[|keys| - 1]];
      assert KeySet(keys) == KeySet(init) + {keys[|keys| - 1]};
    }
  }

  /** `hasChanged` after the loop holds exactly when some registered slice is no longer `===`. */
  lemma {:induction false} AnySliceChangedIff(keys: seq<Key>, reducers: map<Key, Reducer>, prev: map<Key, SliceRef>, action: Action)
    requires Covers(keys, reducers)
    ensures AnySliceChanged(keys, reducers, prev, action) <==> exists i :: 0 <= i < |keys| && SliceChanged(keys[i], reducers, prev, action)
    decreases |keys|
  {
    if keys != [] {
      var init := keys[..|keys| - 1];
      assert Covers(init, reducers) by {
        forall j | j in init ensures j in reducers { assert j in keys; }
      }
      AnySliceChangedIff(init, reducers, prev, action);
      if AnySliceChanged(init, reducers, prev, action) {
        var i :| 0 <= i < |init| && SliceChanged(init[i], reducers, prev, action);
        assert keys[i] == init[i];
      }
      if exists i :: 0 <= i < |keys| && SliceChanged(keys[i], reducers, prev, action) {
        var i :| 0 <= i < |keys| && SliceChanged(keys[i], reducers, prev, action);
        if i < |init| {
          assert init[i] == keys[i];
        }
      }
    }
  }

  /**
   * The pass reports no change exactly when the state has as many keys as the table and
   * every registered reducer hands back the very slice it was given.
   */
  lemma UnchangedIff(keys: seq<Key>, reducers: map<Key, Reducer>, prev: map<Key, SliceRef>, action: Action)
    requires Covers(keys, reducers)
    ensures !HasChanged(keys, reducers, prev, action) <==>
              && |keys| == |prev|
              && forall i :: 0 <= i < |keys| ==> keys[i] in prev && reducers[keys[i]](Some(prev[keys[i]]), action) == prev[keys[i]]
  {
    AnySliceChangedIff(keys, reducers, prev, action);
  }

  lemma {:induction false} DistinctKeySetSize(keys: seq<Key>)
    requires Distinct(keys)
    ensures |KeySet(keys)| == |keys|
    decreases |keys|
  {
    if keys != [] {
      var init := keys[..|keys| - 1];
      var last := keys[|keys| - 1];
      DistinctKeySetSize(init);
      assert keys == init + [last];
      assert KeySet(keys) == KeySet(init) + {last};
      forall i | 0 <= i < |init| ensures init[i] != last {
        assert keys[i] == init[i];
      }
      assert last !in KeySet(init);
    }
  }

  lemma SubsetOfSameSize<T>(a: set<T>, b: set<T>)
    requires a <= b && |a| == |b|
    ensures a == b
  {
    if a != b {
      var x :| x in b && x !in a;
      assert a <= b - {x};
      assert |b - {x}| == |b| - 1;
      SubsetSize(a, b - {x});
    }
  }

  lemma {:induction false} SubsetSize<T>(a: set<T>, b: set<T>)
    requires a <= b
    ensures |a| <= |b|
    decreases |b|
  {
    if a != {} {
      var x :| x in a;
      SubsetSize(a - {x}, b - {x});
    }
  }

  /**
   * When the pass reports no change, the incoming state holds exactly the registered keys
   * and the object the pass built has the same contents: returning the incoming object
   * loses nothing.
   */
  lemma UnchangedMeansSameContents(keys: seq<Key>, reducers: map<Key, Reducer>, prev: map<Key, SliceRef>, action: Action)
    requires Covers(keys, reducers) && Distinct(keys)
    requires !HasChanged(keys, reducers, prev, action)
    ensures prev.Keys == KeySet(keys)
    ensures NextEntries(keys, reducers, prev, action) == prev
  {
    UnchangedIff(keys, reducers, prev, action);
    NextEntriesAt(keys, reducers, prev, action);
    DistinctKeySetSize(keys);
    assert KeySet(keys) <= prev.Keys by {
      forall k | k in KeySet(keys) ensures k in prev {
        var i :| 0 <= i < |keys| && keys[i] == k;
      }
    }
    SubsetOfSameSize(KeySet(keys), prev.Keys);
    var next := NextEntries(keys, reducers, prev, action);
    forall k | k in prev ensures next[k] == prev[k] {
      var i :| 0 <= i < |keys| && keys[i] == k;
    }
  }

  /** Whatever the pass returns holds exactly each registered reducer's output. */
  lemma PassContentsIsNext(keys: seq<Key>, reducers: map<Key, Reducer>, prev: map<Key, SliceRef>, action: Action)
    requires Covers(keys, reducers) && Distinct(keys)
    ensures PassContents(keys, reducers, prev, action) == NextEntries(keys, reducers, prev, action)
    ensures PassContents(keys, reducers, prev, action).Keys == KeySet(keys)
  {
    NextEntriesAt(keys, reducers, prev, action);
    if !HasChanged(keys, reducers, prev, action) {
      UnchangedMeansSameContents(keys, reducers, prev, action);
    }
  }

  /** An undefined state is read as `{}`: with any reducer registered, the pass reports a change. */
  lemma UndefinedStateChanges(keys: seq<Key>, reducers: map<Key, Reducer>, action: Action, persistType: string)
    requires Covers(keys, reducers) && |keys| > 0
    ensures HasChanged(keys, reducers, EntriesOf(null), action)
    ensures PassEvents(keys, reducers, EntriesOf(null), action, persistType) != []
  {
  }

  // ---------------------------------------------------------------------------
  // Merging configured reducers into the table
  // ---------------------------------------------------------------------------

  /** An argument object lists each of its keys once, as a JavaScript object does. */
  ghost predicate UniqueKeys(entries: seq<(Key, Reducer)>)
  {
    forall i, j :: 0 <= i < j < |entries| ==> entries[i].0 != entries[j].0
  }

  /** The keys an argument object lists. */
  ghost function ConfiguredKeys(entries: seq<(Key, Reducer)>): set<Key>
  {
    set i | 0 <= i < |entries| :: entries[i].0
  }

  /** Entry `i` is the last one with its key. */
  ghost predicate IsLastFor(entries: seq<(Key, Reducer)>, i: int)
    requires 0 <= i < |entries|
  {
    forall j :: i < j < |entries| ==> entries[j].0 != entries[i].0
  }

  /** The table after `table[key] = reducer` for each entry in order. */
  ghost function MergedTable(table: map<Key, Reducer>, entries: seq<(Key, Reducer)>): map<Key, Reducer>
    decreases |entries|
  {
    if entries == [] then table
    else
      var last := entries[|entries| - 1];
      MergedTable(table, entries[..|entries| - 1])[last.0 := last.1]
  }

  /** The table's key order (insertion order) after the same assignments. */
  ghost function MergedOrder(order: seq<Key>, entries: seq<(Key, Reducer)>): seq<Key>
    decreases |entries|
  {
    if entries == [] then order
    else
      var last := entries[|entries| - 1];
      var before := MergedOrder(order, entries[..|entries| - 1]);
      if last.0 in before then before else before + [last.0]
  }

  lemma ConfiguredKeysSnoc(entries: seq<(Key, Reducer)>)
    requires entries != []
    ensures ConfiguredKeys(entries) == ConfiguredKeys(entries[..|entries| - 1]) + {entries[|entries| - 1].0}
  {
    var init := entries[..|entries| - 1];
    forall k | k in ConfiguredKeys(entries) ensures k in ConfiguredKeys(init) + {entries[|entries| - 1].0} {
      var i :| 0 <= i < |entries| && entries[i].0 == k;
      if i < |init| { assert init[i] == entries[i]; }
    }
    forall k | k in ConfiguredKeys(init) ensures k in ConfiguredKeys(entries) {
      var i :| 0 <= i < |init| && init[i].0 == k;
      assert entries[i] == init[i];
    }
  }

  /** The merged table holds the old keys and every configured key; keys not configured keep their reducer. */
  lemma {:induction false} MergedTableKeys(table: map<Key, Reducer>, entries: seq<(Key, Reducer)>)
    ensures MergedTable(table, entries).Keys == table.Keys + ConfiguredKeys(entries)
    ensures forall k :: k in table && k !in ConfiguredKeys(entries) ==> MergedTable(table, entries)[k] == table[k]
    decreases |entries|
  {
    if entries != [] {
      MergedTableKeys(table, entries[..|entries| - 1]);
      ConfiguredKeysSnoc(entries);
    }
  }

  /** Every configured key ends up with the reducer of its last entry. */
  lemma {:induction false} MergedTableAt(table: map<Key, Reducer>, entries: seq<(Key, Reducer)>, i: int)
    requires 0 <= i < |entries| && IsLastFor(entries, i)
    ensures entries[i].0 in MergedTable(table, entries)
    ensures MergedTable(table, entries)[entries[i].0] == entries[i].1
    decreases |entries|
  {
    var init := entries[..|entries| - 1];
    if i < |init| {
      assert entries[i] == init[i];
      assert IsLastFor(init, i) by {
        forall j | i < j < |init| ensures init[j].0 != init[i].0 {
          assert init[j] == entries[j];
        }
      }
      MergedTableAt(table, init, i);
    }
  }

  /** The key order stays duplicate-free, keeps its prefix and lists exactly the table's keys. */
  lemma {:induction false} MergedOrderAt(order: seq<Key>, entries: seq<(Key, Reducer)>)
    requires Distinct(order)
    ensures Distinct(MergedOrder(order, entries))
    ensures KeySet(MergedOrder(order, entries)) == KeySet(order) + ConfiguredKeys(entries)
    ensures |order| <= |MergedOrder(order, entries)| && MergedOrder(order, entries)[..|order|] == order
    decreases |entries|
  {
    if entries != [] {
      var init := entries[..|entries| - 1];
      var last := entries[|entries| - 1];
      MergedOrderAt(order, init);
      ConfiguredKeysSnoc(entries);
      var before := MergedOrder(order, init);
      if last.0 !in before {
        assert (before + [last.0])[..|order|] == before[..|order|];
        assert KeySet(before + [last.0]) == KeySet(before) + {last.0};
      }
    }
  }

  // ---------------------------------------------------------------------------
  // The helper object
  // ---------------------------------------------------------------------------

  class Helper {
    /** The table of slice reducers and its key order (`Object.keys` order). */
    var reducers: map<Key, Reducer>
    var keyOrder: seq<Key>
    /** The redux store, once created. */
    var store: Option<ReduxStore>
    /** True while a pass of the combined reducer runs. */
    var dispatching: bool
    /** The root state `getState` hands out while dispatching. */
    var current: StateObject
    /** The calls made on persistence and on the store, in order. */
    var log: seq<Event>

    /** The action type of the persistence write-back action. */
    const persistType: string
    /** The actions redux dispatches when it creates a store and when it replaces its reducer. */
    const initAction: Action
    const replaceAction: Action

    ghost predicate Fits(c: Combined)
      reads this
    {
      Distinct(c.reducerKeys) && Covers(c.reducerKeys, reducers)
    }

    ghost predicate Valid()
      reads this
    {
      && Distinct(keyOrder)
      && reducers.Keys == KeySet(keyOrder)
      && (store.Some? ==> Fits(store.value.combined))
    }

    constructor (persistType: string, initAction: Action, replaceAction: Action)
      ensures Valid()
      ensures reducers == map[] && keyOrder == [] && store == None && log == []
      ensures !dispatching && fresh(current) && current.entries == map[]
      ensures this.persistType == persistType && this.initAction == initAction && this.replaceAction == replaceAction
    {
      reducers := map[];
      keyOrder := [];
      store := None;
      dispatching := false;
      current := new StateObject(map[]);
      log := [];
      this.persistType := persistType;
      this.initAction := initAction;
      this.replaceAction := replaceAction;
    }

    /** The `store` getter: throws when no store was created. */
    function Store(): (r: Result<ReduxStore, StoreError>)
      reads this
      ensures r.Failure? <==> store.None?
      ensures r.Success? ==> r.value == store.value
    {
      match store
      case None => Failure(StoreNotFoundError)
      case Some(s) => Success(s)
    }

    /** `getState`: the incoming state while dispatching, otherwise the store's state. */
    function GetState(): (r: Result<StateObject, StoreError>)
      reads this
      ensures dispatching ==> r == Success(current)
      ensures !dispatching ==> (r.Failure? <==> store.None?)
      ensures !dispatching && store.Some? ==> r == Success(store.value.state)
    {
      if dispatching then Success(current)
      else
        match Store()
        case Failure(e) => Failure(e)
        case Success(s) => Success(s.state)
    }

    /** The table's current key snapshot, as `combineReducers` takes it. */
    function CombineReducers(): (c: Combined)
      reads this
      requires Valid()
      ensures Fits(c)
      ensures KeySet(c.reducerKeys) == reducers.Keys
      ensures c.reducerKeys == keyOrder
    {
      Combined(keyOrder)
    }

    /** Enter a pass: `getState` now hands out the incoming state. */
    method BeginPass(state: StateObject)
      modifies this
      ensures dispatching && current == state
      ensures GetState() == Success(state)
      ensures reducers == old(reducers) && keyOrder == old(keyOrder) && store == old(store) && log == old(log)
    {
      dispatching := true;
      current := state;
    }

    /** Leave a pass: `getState` reads the store again and the dispatch state is a fresh `{}`. */
    method EndPass()
      modifies this
      ensures !dispatching && fresh(current) && current.entries == map[]
      ensures reducers == old(reducers) && keyOrder == old(keyOrder) && store == old(store) && log == old(log)
    {
      dispatching := false;
      current := new StateObject(map[]);
    }

    /** One pass of the combined reducer `c` (the closure `combineReducers` returns). */
    method Reduce(c: Combined, state: StateObject?, action: Action) returns (r: StateObject)
      requires Valid() && Fits(c)
      modifies this
      ensures Valid()
      ensures reducers == old(reducers) && keyOrder == old(keyOrder) && store == old(store)
      ensures HasChanged(c.reducerKeys, reducers, EntriesOf(state), action) ==>
                fresh(r) && r.entries == NextEntries(c.reducerKeys, reducers, EntriesOf(state), action)
      ensures !HasChanged(c.reducerKeys, reducers, EntriesOf(state), action) ==>
                if state == null then fresh(r) && r.entries == map[] else r == state
      ensures r.entries == PassContents(c.reducerKeys, reducers, EntriesOf(state), action)
      ensures log == old(log) + PassEvents(c.reducerKeys, reducers, EntriesOf(state), action, persistType)
      ensures !dispatching && fresh(current) && current.entries == map[]
    {
      var s := state;
      if s == null {
        s := new StateObject(map[]);
      }
      ghost var prev := s.entries;
      BeginPass(s);

      var keys := c.reducerKeys;
      var nextState := new StateObject(map[]);
      var hasChanged := false;
      for i := 0 to |keys|
        invariant dispatching && current == s && GetState() == Success(s)
        invariant s.entries == prev && nextState != s && fresh(nextState)
        invariant reducers == old(reducers) && keyOrder == old(keyOrder) && store == old(store) && log == old(log)
        invariant Covers(keys[..i], reducers)
        invariant nextState.entries == NextEntries(keys[..i], reducers, prev, action)
        invariant hasChanged == AnySliceChanged(keys[..i], reducers, prev, action)
      {
        var key := keys[i];
        var reducer := reducers[key];
        var previousForKey := Lookup(s.entries, key);
        var nextForKey := reducer(previousForKey, action);
        nextState.entries := nextState.entries[key := nextForKey];
        hasChanged := hasChanged || Some(nextForKey) != previousForKey;
        assert keys[..i + 1][..i] == keys[..i];
        assert keys[..i + 1][i] == key;
      }
      assert keys[..|keys|] == keys;

      hasChanged := hasChanged || |keys| != |s.entries|;
      if hasChanged {
        log := log + [PersistUpdate(nextState.entries, action.actionType == persistType)];
      }
      EndPass();
      r := if hasChanged then nextState else s;
    }

    /** `store.dispatch(action)`: one pass over the store's state with the store's reducer. */
    method Dispatch(action: Action) returns (r: Result<Action, StoreError>)
      requires Valid()
      modifies this
      ensures Valid()
      ensures reducers == old(reducers) && keyOrder == old(keyOrder)
      ensures old(store).None? ==>
                && r == Failure(StoreNotFoundError) && store == old(store) && log == old(log)
                && dispatching == old(dispatching) && current == old(current)
      ensures old(store).Some? ==>
                && r == Success(action)
                && !dispatching && fresh(current) && current.entries == map[]
                && store.Some? && GetState() == Success(store.value.state)
                && store.value.combined == old(store).value.combined
                && var keys := old(store).value.combined.reducerKeys;
                   var prev := old(store).value.state.entries;
                   && store.value.state.entries == PassContents(keys, reducers, prev, action)
                   && (!HasChanged(keys, reducers, prev, action) ==> store.value.state == old(store).value.state)
                   && log == old(log) + PassEvents(keys, reducers, prev, action, persistType)
    {
      match store
      case None =>
        r := Failure(StoreNotFoundError);
      case Some(st) =>
        var next := Reduce(st.combined, st.state, action);
        store := Some(ReduxStore(st.combined, next));
        r := Success(action);
    }

    /** redux `replaceReducer`: swap the reducer in, then run the REPLACE pass. */
    method ReplaceReducer(c: Combined)
      requires Valid() && Fits(c) && store.Some?
      modifies this
      ensures Valid()
      ensures reducers == old(reducers) && keyOrder == old(keyOrder)
      ensures store.Some? && store.value.combined == c
      ensures !dispatching && fresh(current) && current.entries == map[]
      ensures var prev := old(store).value.state.entries;
              && store.value.state.entries == PassContents(c.reducerKeys, reducers, prev, replaceAction)
              && log == old(log) + [ReducerReplaced(c.reducerKeys)] + PassEvents(c.reducerKeys, reducers, prev, replaceAction, persistType)
    {
      var st := store.value;
      log := log + [ReducerReplaced(c.reducerKeys)];
      store := Some(ReduxStore(c, st.state));
      var next := Reduce(c, st.state, replaceAction);
      store := Some(ReduxStore(c, next));
    }

    /** redux `createStore`: the store starts from the INIT pass over the preloaded state. */
    method CreateReduxStore(c: Combined, preloadedState: StateObject?)
      requires Valid() && Fits(c) && store.None?
      modifies this
      ensures Valid()
      ensures reducers == old(reducers) && keyOrder == old(keyOrder)
      ensures store.Some? && store.value.combined == c
      ensures !dispatching && fresh(current) && current.entries == map[]
      ensures store.value.state.entries == PassContents(c.reducerKeys, reducers, EntriesOf(preloadedState), initAction)
      ensures log == old(log) + [StoreCreated(c.reducerKeys)] + PassEvents(c.reducerKeys, reducers, EntriesOf(preloadedState), initAction, persistType)
    {
      log := log + [StoreCreated(c.reducerKeys)];
      var st := Reduce(c, preloadedState, initAction);
      store := Some(ReduxStore(c, st));
    }

    /**
     * `appendReducers`: only the first key of the argument is used, and a missing or empty
     * key does nothing. The reducer is always stored; the store's reducer is replaced only
     * when the key is new and a store exists.
     */
    method AppendReducers(autoReducer: seq<(Key, Reducer)>)
      requires Valid() && UniqueKeys(autoReducer)
      modifies this
      ensures Valid()
      ensures (|autoReducer| == 0 || autoReducer[0].0 == "") ==>
                && reducers == old(reducers) && keyOrder == old(keyOrder) && store == old(store) && log == old(log)
                && dispatching == old(dispatching) && current == old(current)
      ensures |autoReducer| > 0 && autoReducer[0].0 != "" ==>
                var key := autoReducer[0].0;
                && reducers == old(reducers)[key := autoReducer[0].1]
                && keyOrder == (if key in old(reducers) then old(keyOrder) else old(keyOrder) + [key])
                && (if key !in old(reducers) && old(store).Some?
                    then && store.Some? && store.value.combined == Combined(keyOrder)
                         && store.value.state.entries == PassContents(keyOrder, reducers, old(store).value.state.entries, replaceAction)
                         && log == old(log) + [ReducerReplaced(keyOrder)]
                                  + PassEvents(keyOrder, reducers, old(store).value.state.entries, replaceAction, persistType)
                         && !dispatching && fresh(current) && current.entries == map[]
                    else && store == old(store) && log == old(log)
                         && dispatching == old(dispatching) && current == old(current))
    {
      if |autoReducer| > 0 {
        var key := autoReducer[0].0;
        if key != "" {
          var known := key in reducers;
          reducers := reducers[key := autoReducer[0].1];
          if !known {
            keyOrder := keyOrder + [key];
          }
          assert KeySet(keyOrder) == old(KeySet(keyOrder)) + {key};
          assert store.Some? ==> Fits(store.value.combined) by {
            if store.Some? {
              assert old(Fits(store.value.combined));
            }
          }
          if !known && store.Some? {
            ReplaceReducer(CombineReducers());
          }
        }
      }
    }

    /** `this.reducers[key] = reducers[key]` for each configured key, in order. */
    method CopyReducers(configReducers: seq<(Key, Reducer)>)
      requires Valid() && UniqueKeys(configReducers)
      modifies this
      ensures Valid()
      ensures reducers == MergedTable(old(reducers), configReducers)
      ensures keyOrder == MergedOrder(old(keyOrder), configReducers)
      ensures store == old(store) && log == old(log)
      ensures dispatching == old(dispatching) && current == old(current)
    {
      for i := 0 to |configReducers|
        invariant Valid()
        invariant store == old(store) && log == old(log)
        invariant dispatching == old(dispatching) && current == old(current)
        invariant old(reducers).Keys <= reducers.Keys
        invariant reducers == MergedTable(old(reducers), configReducers[..i])
        invariant keyOrder == MergedOrder(old(keyOrder), configReducers[..i])
      {
        var key := configReducers[i].0;
        assert configReducers[..i + 1][..i] == configReducers[..i];
        assert configReducers[..i + 1][i] == configReducers[i];
        ghost var tableBefore := reducers;
        ghost var orderBefore := keyOrder;
        if key !in reducers {
          keyOrder := keyOrder + [key];
          assert KeySet(keyOrder) == KeySet(orderBefore) + {key};
        }
        reducers := reducers[key := configReducers[i].1];
        assert store.Some? ==> Fits(store.value.combined) by {
          if store.Some? {
            assert tableBefore.Keys <= reducers.Keys;
          }
        }
      }
      assert configReducers[..|configReducers|] == configReducers;
    }

    /** The branch of `createStore` with a store: rehydrate first, then swap the reducer in. */
    method RehydrateThenReplace(c: Combined)
      requires Valid() && Fits(c) && store.Some?
      modifies this
      ensures Valid()
      ensures reducers == old(reducers) && keyOrder == old(keyOrder)
      ensures store.Some? && store.value.combined == c
      ensures !dispatching && fresh(current) && current.entries == map[]
      ensures var prev := old(store).value.state.entries;
              && store.value.state.entries == PassContents(c.reducerKeys, reducers, prev, replaceAction)
              && log == old(log) + [PersistRehydrate, ReducerReplaced(c.reducerKeys)]
                        + PassEvents(c.reducerKeys, reducers, prev, replaceAction, persistType)
    {
      log := log + [PersistRehydrate];
      ReplaceReducer(c);
    }

    /** The branch of `createStore` without a store: create it, then rehydrate. */
    method CreateThenRehydrate(c: Combined, preloadedState: StateObject?)
      requires Valid() && Fits(c) && store.None?
      modifies this
      ensures Valid()
      ensures reducers == old(reducers) && keyOrder == old(keyOrder)
      ensures store.Some? && store.value.combined == c
      ensures !dispatching && fresh(current) && current.entries == map[]
      ensures store.value.state.entries == PassContents(c.reducerKeys, reducers, EntriesOf(preloadedState), initAction)
      ensures log == old(log) + [StoreCreated(c.reducerKeys)]
                     + PassEvents(c.reducerKeys, reducers, EntriesOf(preloadedState), initAction, persistType)
                     + [PersistRehydrate]
    {
      CreateReduxStore(c, preloadedState);
      log := log + [PersistRehydrate];
    }

    /**
     * `createStore`: copy every configured reducer into the table, record the persistence
     * configuration, then either rehydrate and swap the reducer of the existing store, or
     * create the store and rehydrate afterwards.
     */
    method CreateStore(configReducers: seq<(Key, Reducer)>, preloadedState: StateObject?, persist: Option<PersistConfig>)
      returns (result: ReduxStore)
      requires Valid() && UniqueKeys(configReducers)
      modifies this
      ensures Valid()
      ensures reducers == MergedTable(old(reducers), configReducers)
      ensures keyOrder == MergedOrder(old(keyOrder), configReducers)
      ensures store == Some(result) && result.combined == Combined(keyOrder)
      ensures !dispatching && fresh(current) && current.entries == map[]
      ensures old(store).Some? ==>
                result.state.entries == PassContents(keyOrder, reducers, old(store).value.state.entries, replaceAction)
      ensures old(store).None? ==>
                result.state.entries == PassContents(keyOrder, reducers, EntriesOf(preloadedState), initAction)
      ensures old(store).Some? ==>
                var prev := old(store).value.state.entries;
                log == old(log) + [PersistSetConfig(persist), PersistRehydrate, ReducerReplaced(keyOrder)]
                       + PassEvents(keyOrder, reducers, prev, replaceAction, persistType)
      ensures old(store).None? ==>
                log == old(log) + [PersistSetConfig(persist), StoreCreated(keyOrder)]
                       + PassEvents(keyOrder, reducers, EntriesOf(preloadedState), initAction, persistType)
                       + [PersistRehydrate]
    {
      CopyReducers(configReducers);
      log := log + [PersistSetConfig(persist)];
      var combined := CombineReducers();
      if store.Some? {
        RehydrateThenReplace(combined);
      } else {
        CreateThenRehydrate(combined, preloadedState);
      }
      result := store.value;
    }
  }
}
