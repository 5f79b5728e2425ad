/**
 * Module bookkeeping of a model: its instance name, the actions it declares and the
 * names they get, the reducer map `register` hands to the store, and access to the
 * model's data slice.
 *
 * The reducer object a model owns (`BaseReducer`) and the actions (`NormalAction`,
 * `RequestAction`) are represented by what the model asks of them: a case table that
 * can be cleared and appended to, a data reducer under one name, and, per action, the
 * reducers and effects it contributes.
 */
module BaseModel {
  import opened Wrappers

  // ---------------------------------------------------------------------------
  // Names
  // ---------------------------------------------------------------------------

  function DigitChar(d: nat): char
    requires d < 10
  {
    ('0' as int + d) as char
  }

  function DigitValue(c: char): nat
  {
    if '0' <= c <= '9' then c as int - '0' as int else 0
  }

  /** The decimal text of a counter value, as `'.' + counter` writes it. */
  function NatToString(n: nat): (s: string)
    ensures |s| >= 1
    ensures forall i :: 0 <= i < |s| ==> '0' <= s[i] <= '9'
    ensures s[0] == '0' ==> n == 0
    decreases n
  {
    if n < 10 then [DigitChar(n)] else NatToString(n / 10) + [DigitChar(n % 10)]
  }

  /** Reads decimal digits back into a number. */
  function ParseNat(s: string): nat
    decreases |s|
  {
    if s == [] then 0 else ParseNat(s[..|s| - 1]) * 10 + DigitValue(s[|s| - 1])
  }

  /** Reading the decimal text of a counter gives the counter back. */
  lemma {:induction false} ParseNatToString(n: nat)
    ensures ParseNat(NatToString(n)) == n
    decreases n
  {
    var s := NatToString(n);
    if n >= 10 {
      ParseNatToString(n / 10);
      assert s[..|s| - 1] == NatToString(n / 10);
      assert DigitValue(s[|s| - 1]) == n % 10;
    } else {
      assert s[..|s| - 1] == [];
    }
  }

  /** `(instanceName ? `[${instanceName}]` : '') + this.constructor.name` */
  function InstanceName(name: string, className: string): (r: string)
    ensures name == "" ==> r == className
    ensures |r| == (if name == "" then 0 else |name| + 2) + |className|
  {
    (if name != "" then "[" + name + "]" else "") + className
  }

  /** A given name appears in square brackets in front of the class name, which always ends the instance name. */
  lemma InstanceNameShape(name: string, className: string)
    requires name != ""
    ensures var r := InstanceName(name, className);
      && r[0] == '[' && r[1..|name| + 1] == name && r[|name| + 1] == ']'
      && r[|name| + 2..] == className
  {
  }

  /** Different names given to instances of one class give different instance names. */
  lemma InstanceNameInjective(a: string, b: string, className: string)
    ensures InstanceName(a, className) == InstanceName(b, className) ==> a == b
  {
    if InstanceName(a, className) == InstanceName(b, className) && a != "" && b != "" {
      InstanceNameShape(a, className);
      InstanceNameShape(b, className);
    }
  }

  /** The name of the action declared with counter value `counter`: `instanceName + '.' + counter`. */
  function ActionName(instanceName: string, counter: nat): string
  {
    instanceName + "." + NatToString(counter)
  }

  /** Counter values can be read back from action names: distinct counters give distinct names. */
  lemma ActionNameInjective(instanceName: string, m: nat, n: nat)
    ensures ActionName(instanceName, m) == ActionName(instanceName, n) <==> m == n
    ensures ActionName(instanceName, m) != instanceName
  {
    var s := ActionName(instanceName, m);
    if s == ActionName(instanceName, n) {
      assert s[|instanceName| + 1..] == NatToString(m);
      assert s[|instanceName| + 1..] == NatToString(n);
      ParseNatToString(m);
      ParseNatToString(n);
    }
  }

  /** `BaseModel.isLoading(...)`: whether any of the given loading flags is set. */
  function IsLoading(fromUseLoading: seq<bool>): (r: bool)
    ensures r <==> exists i :: 0 <= i < |fromUseLoading| && fromUseLoading[i]
    decreases |fromUseLoading|
  {
    if fromUseLoading == [] then false
    else
      var rest := IsLoading(fromUseLoading[1..]);
      assert rest <==> exists i :: 1 <= i < |fromUseLoading| && fromUseLoading[i] by {
        if rest {
          var j :| 0 <= j < |fromUseLoading[1..]| && fromUseLoading[1..][j];
          assert fromUseLoading[j + 1] == fromUseLoading[1..][j];
        }
        if exists i :: 1 <= i < |fromUseLoading| && fromUseLoading[i] {
          var i :| 1 <= i < |fromUseLoading| && fromUseLoading[i];
          assert fromUseLoading[1..][i - 1] == fromUseLoading[i];
        }
      }
      fromUseLoading[0] || rest
  }

  // ---------------------------------------------------------------------------
  // Actions and the reducer object
  // ---------------------------------------------------------------------------

  datatype ActionKind = Normal | Request

  /** One case of a case table: the action type it answers and the transition it applies. */
  datatype Case = Case(actionType: string, effect: nat)

  /** A reducer handed to the store: one an action contributes, or a model's data reducer. */
  datatype ReducerRef = ActionReducer(id: nat) | DataReducer(reducerName: string)

  /** What an action declaration contributes: its `collectReducers()` and its `collectEffects()`. */
  datatype ActionConfig = ActionConfig(reducers: map<string, ReducerRef>, effects: seq<Case>)

  /** A declared action: its kind, its configuration and the name the model gave it. */
  datatype Declared = Declared(kind: ActionKind, config: ActionConfig, name: string)

  datatype ModelError = ReferenceError(message: string)

  /** The left-to-right union of the actions' reducer maps: a later key overrides an earlier one. */
  function CollectedReducers(actions: seq<Declared>): map<string, ReducerRef>
    decreases |actions|
  {
    if actions == [] then map[]
    else CollectedReducers(actions[..|actions| - 1]) + actions[|actions| - 1].config.reducers
  }

  /** The actions' effects, one list after another. */
  function CollectedCases(actions: seq<Declared>): seq<Case>
    decreases |actions|
  {
    if actions == [] then []
    else CollectedCases(actions[..|actions| - 1]) + actions[|actions| - 1].config.effects
  }

  /** A key is registered exactly when some action contributes it. */
  lemma {:induction false} CollectedReducersKeys(actions: seq<Declared>, k: string)
    ensures k in CollectedReducers(actions) <==> exists i :: 0 <= i < |actions| && k in actions[i].config.reducers
    decreases |actions|
  {
    if actions != [] {
      var init := actions[..|actions| - 1];
      CollectedReducersKeys(init, k);
      if exists i :: 0 <= i < |init| && k in init[i].config.reducers {
        var i :| 0 <= i < |init| && k in init[i].config.reducers;
        assert actions[i] == init[i];
      }
      if exists i :: 0 <= i < |actions| && k in actions[i].config.reducers {
        var i :| 0 <= i < |actions| && k in actions[i].config.reducers;
        if i < |init| {
          assert init[i] == actions[i];
        }
      }
    }
  }

  /** A registered key holds the reducer of the last action that contributes it. */
  lemma {:induction false} CollectedReducersAt(actions: seq<Declared>, i: int, k: string)
    requires 0 <= i < |actions| && k in actions[i].config.reducers
    requires forall j :: i < j < |actions| ==> k !in actions[j].config.reducers
    ensures k in CollectedReducers(actions)
    ensures CollectedReducers(actions)[k] == actions[i].config.reducers[k]
    decreases |actions|
  {
    var init := actions[..|actions| - 1];
    if i < |init| {
      assert init[i] == actions[i];
      forall j | i < j < |init| ensures k !in init[j].config.reducers {
        assert init[j] == actions[j];
      }
      CollectedReducersAt(init, i, k);
    }
  }

  /** Stand-in for `BaseReducer`: the model's case table and its data reducer. */
  class CaseReducer<Data> {
    const initData: Data
    /** The name `getReducerName()` gives: the slice key of the model's data. */
    const reducerName: string
    var cases: seq<Case>

    constructor (initData: Data, reducerName: string)
      ensures this.initData == initData && this.reducerName == reducerName && cases == []
    {
      this.initData := initData;
      this.reducerName := reducerName;
      cases := [];
    }

    method Clear()
      modifies this
      ensures cases == []
    {
      cases := [];
    }

    method AddCase(more: seq<Case>)
      modifies this
      ensures cases == old(cases) + more
    {
      cases := cases + more;
    }

    /** `createData()`: the data reducer, under the reducer's name only. */
    function CreateData(): (m: map<string, ReducerRef>)
      ensures m.Keys == {reducerName} && m[reducerName] == DataReducer(reducerName)
    {
      map[reducerName := DataReducer(reducerName)]
    }
  }

  // ---------------------------------------------------------------------------
  // The model
  // ---------------------------------------------------------------------------

  /** The name an action gets: the bare instance name in debug+proxy mode, else the numbered one. */
  function NameFor(instanceName: string, counter: Option<nat>): string
  {
    match counter
    case None => instanceName
    case Some(k) => ActionName(instanceName, k)
  }

  class Model<Data> {
    const className: string
    const instanceName: string
    /** The reducer object; null when `initReducer()` returned null. */
    const reducer: CaseReducer?<Data>
    /** What the model's `effects()` returns. */
    const effects: seq<Case>
    var sequenceCounter: nat
    var actions: seq<Declared>
    /** For each action, the counter value its name carries (none in debug+proxy mode). */
    ghost var counterOf: seq<Option<nat>>

    ghost predicate Valid()
      reads this
    {
      && |counterOf| == |actions|
      && (forall i :: 0 <= i < |actions| ==> actions[i].name == NameFor(instanceName, counterOf[i]))
      && (forall i :: 0 <= i < |counterOf| && counterOf[i].Some? ==> 1 <= counterOf[i].value <= sequenceCounter)
      && (forall i, j :: 0 <= i < j < |counterOf| && counterOf[i].Some? && counterOf[j].Some? ==>
            counterOf[i].value < counterOf[j].value)
    }

    /**
     * The constructor: `className` is `this.constructor.name`, `initData` what
     * `initReducer()` returned (None for null), `dataReducerName` the name the reducer
     * object takes, `effects` what `effects()` returns.
     */
    constructor (name: string, className: string, initData: Option<Data>, dataReducerName: string, effects: seq<Case>)
      ensures Valid()
      ensures this.className == className && this.instanceName == InstanceName(name, className)
      ensures (reducer != null) <==> initData.Some?
      ensures reducer != null ==> fresh(reducer) && reducer.initData == initData.value
                                  && reducer.reducerName == dataReducerName && reducer.cases == []
      ensures this.effects == effects && sequenceCounter == 0 && actions == []
    {
      this.className := className;
      this.instanceName := InstanceName(name, className);
      this.effects := effects;
      if initData.Some? {
        this.reducer := new CaseReducer(initData.value, dataReducerName);
      } else {
        this.reducer := null;
      }
      sequenceCounter := 0;
      actions := [];
      counterOf := [];
    }

    /** The common body of `actionNormal` and `actionRequest`. */
    method Declare(kind: ActionKind, config: ActionConfig, debug: bool, proxyEnabled: bool) returns (a: Declared)
      requires Valid()
      modifies this
      ensures Valid()
      ensures a.kind == kind && a.config == config
      ensures actions == old(actions) + [a]
      ensures counterOf == old(counterOf) + [if debug && proxyEnabled then None else Some(sequenceCounter)]
      ensures !(debug && proxyEnabled) ==>
                sequenceCounter == old(sequenceCounter) + 1 && a.name == ActionName(instanceName, sequenceCounter)
      ensures debug && proxyEnabled ==>
                sequenceCounter == old(sequenceCounter) && a.name == instanceName
    {
      var name := instanceName;
      if !debug || !proxyEnabled {
        sequenceCounter := sequenceCounter + 1;
        name := name + "." + NatToString(sequenceCounter);
        counterOf := counterOf + [Some(sequenceCounter)];
      } else {
        counterOf := counterOf + [None];
      }
      a := Declared(kind, config, name);
      actions := actions + [a];
    }

    /** `actionNormal(config)`; `debug` and `proxyEnabled` are `isDebug()` and `isProxyEnable()`. */
    method ActionNormal(config: ActionConfig, debug: bool, proxyEnabled: bool) returns (a: Declared)
      requires Valid()
      modifies this
      ensures Valid()
      ensures a == Declared(Normal, config, a.name)
      ensures actions == old(actions) + [a]
      ensures counterOf == old(counterOf) + [if debug && proxyEnabled then None else Some(sequenceCounter)]
      ensures !(debug && proxyEnabled) ==>
                sequenceCounter == old(sequenceCounter) + 1 && a.name == ActionName(instanceName, sequenceCounter)
      ensures debug && proxyEnabled ==>
                sequenceCounter == old(sequenceCounter) && a.name == instanceName
    {
      a := Declare(Normal, config, debug, proxyEnabled);
    }

    /** `actionRequest(config)`. */
    method ActionRequest(config: ActionConfig, debug: bool, proxyEnabled: bool) returns (a: Declared)
      requires Valid()
      modifies this
      ensures Valid()
      ensures a == Declared(Request, config, a.name)
      ensures actions == old(actions) + [a]
      ensures counterOf == old(counterOf) + [if debug && proxyEnabled then None else Some(sequenceCounter)]
      ensures !(debug && proxyEnabled) ==>
                sequenceCounter == old(sequenceCounter) + 1 && a.name == ActionName(instanceName, sequenceCounter)
      ensures debug && proxyEnabled ==>
                sequenceCounter == old(sequenceCounter) && a.name == instanceName
    {
      a := Declare(Request, config, debug, proxyEnabled);
    }

    /**
     * `register()`: clear the case table, then add each action's effects and the model's
     * own effects; return the union of the actions' reducers and, with a reducer, the
     * data reducer last.
     */
    method Register() returns (reducers: map<string, ReducerRef>)
      requires Valid()
      modifies reducer
      ensures reducer == null ==> reducers == CollectedReducers(actions)
      ensures reducer != null ==> reducers == CollectedReducers(actions) + reducer.CreateData()
      ensures reducer != null ==> reducer.cases == CollectedCases(actions) + effects
    {
      reducers := map[];
      if reducer != null {
        reducer.Clear();
      }
      for i := 0 to |actions|
        invariant reducers == CollectedReducers(actions[..i])
        invariant reducer != null ==> reducer.cases == CollectedCases(actions[..i])
      {
        assert actions[..i + 1][..i] == actions[..i];
        reducers := reducers + actions[i].config.reducers;
        if reducer != null {
          reducer.AddCase(actions[i].config.effects);
        }
      }
      assert actions[..|actions|] == actions;
      if reducer != null {
        reducer.AddCase(effects);
        reducers := reducers + reducer.CreateData();
      }
    }

    /** Registering twice leaves the same case table and returns the same reducer map. */
    method RegisterTwice() returns (first: map<string, ReducerRef>, second: map<string, ReducerRef>)
      requires Valid()
      modifies reducer
      ensures first == second
      ensures reducer != null ==> reducer.cases == CollectedCases(actions) + effects
    {
      first := Register();
      ghost var casesAfterFirst := if reducer != null then reducer.cases else [];
      second := Register();
      assert reducer != null ==> reducer.cases == casesAfterFirst;
    }

    /** `connectData(rootState)`: the model's slice, or a ReferenceError without a reducer. */
    function ConnectData(rootState: map<string, Data>): (r: Result<Option<Data>, ModelError>)
      ensures r.Failure? <==> reducer == null
      ensures r.Failure? ==>
                r.error == ReferenceError("[" + className + "] It seems like you hadn't initialize your reducer yet.")
      ensures r.Success? ==> (r.value.Some? <==> reducer.reducerName in rootState)
      ensures r.Success? && r.value.Some? ==> r.value.value == rootState[reducer.reducerName]
    {
      if reducer != null then
        Success(if reducer.reducerName in rootState then Some(rootState[reducer.reducerName]) else None)
      else
        Failure(ReferenceError("[" + className + "] It seems like you hadn't initialize your reducer yet."))
    }
  }

  /**
   * Outside debug+proxy mode every action has its own name, and no numbered name is the
   * bare instance name that debug+proxy mode uses.
   */
  lemma NumberedNamesDistinct<Data>(m: Model<Data>, i: int, j: int)
    requires m.Valid()
    requires 0 <= i < j < |m.actions| && m.counterOf[i].Some? && m.counterOf[j].Some?
    ensures m.actions[i].name != m.actions[j].name
    ensures m.actions[i].name != m.instanceName && m.actions[j].name != m.instanceName
  {
    ActionNameInjective(m.instanceName, m.counterOf[i].value, m.counterOf[j].value);
    ActionNameInjective(m.instanceName, m.counterOf[j].value, m.counterOf[i].value);
  }
}
