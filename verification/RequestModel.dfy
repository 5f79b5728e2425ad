/**
 * The request fixture model: a profile with an id, a name, an optional age and a table
 * of profiles fetched by id. Its hooks edit the data in place during the pending,
 * success and failure phases of its requests; each hook is specified by the pure
 * function from the data before to the data after.
 */
module RequestModel {
  import opened Wrappers
  import BaseModel

  /** The response of the profile endpoint. */
  datatype Response = Response(id: int, name: string, age: Option<int>)

  /** The model's data: the response fields plus the profiles fetched by id. */
  datatype Data = Data(id: int, name: string, age: Option<int>, records: map<int, Response>)

  /** `initReducer()`. */
  function InitReducer(): Data
  {
    Data(1, "init-name", None, map[])
  }

  // ---------------------------------------------------------------------------
  // The hooks as transformations of the data
  // ---------------------------------------------------------------------------

  /** `getProfile.onPrepare`: id 666 and name 'iPhone', nothing else. */
  function GetProfilePrepare(state: Data): (r: Data)
    ensures r.id == 666 && r.name == "iPhone"
    ensures r.age == state.age && r.records == state.records
  {
    state.(id := 666, name := "iPhone")
  }

  /** `getProfile.onSuccess`: every field the response carries overwrites the data. */
  function GetProfileSuccess(state: Data, response: Response): (r: Data)
    ensures r.id == response.id && r.name == response.name
    ensures r.age == (if response.age.Some? then response.age else state.age)
    ensures r.records == state.records
  {
    state.(id := response.id, name := response.name, age := if response.age.Some? then response.age else state.age)
  }

  /** `getProfile.onFail`: id 1000 and name 'nokia', nothing else. */
  function GetProfileFail(state: Data): (r: Data)
    ensures r.id == 1000 && r.name == "nokia"
    ensures r.age == state.age && r.records == state.records
  {
    state.(id := 1000, name := "nokia")
  }

  /** `getProfileById.onSuccess`: the response is stored under the payload's id, nothing else. */
  function GetProfileByIdSuccess(state: Data, payloadId: int, response: Response): (r: Data)
    ensures r.records.Keys == state.records.Keys + {payloadId} && r.records[payloadId] == response
    ensures forall k :: k in state.records && k != payloadId ==> r.records[k] == state.records[k]
    ensures r.id == state.id && r.name == state.name && r.age == state.age
  {
    state.(records := state.records[payloadId := response])
  }

  // ---------------------------------------------------------------------------
  // Properties of the hooks
  // ---------------------------------------------------------------------------

  /** A settled request leaves no trace of its pending phase. */
  lemma SettlingOverridesPrepare(state: Data, response: Response)
    ensures GetProfileSuccess(GetProfilePrepare(state), response) == GetProfileSuccess(state, response)
    ensures GetProfileFail(GetProfilePrepare(state)) == GetProfileFail(state)
  {
  }

  /** A response that carries every field replaces all of the profile but the records. */
  lemma FullResponseReplacesProfile(state: Data, response: Response)
    requires response.age.Some?
    ensures GetProfileSuccess(state, response) == Data(response.id, response.name, response.age, state.records)
  {
  }

  /** Responses stored under different ids do not interfere: the order they settle in does not matter. */
  lemma ByIdSuccessesCommute(state: Data, a: int, ra: Response, b: int, rb: Response)
    requires a != b
    ensures GetProfileByIdSuccess(GetProfileByIdSuccess(state, a, ra), b, rb)
         == GetProfileByIdSuccess(GetProfileByIdSuccess(state, b, rb), a, ra)
  {
  }

  /** Two responses under the same id: the one that settles last is kept. */
  lemma ByIdLastSettledWins(state: Data, id: int, first: Response, second: Response)
    ensures GetProfileByIdSuccess(GetProfileByIdSuccess(state, id, first), id, second)
         == GetProfileByIdSuccess(state, id, second)
  {
  }

  /** From the initial data: pending then success, and pending then failure. */
  lemma GetProfileLifecycleFromInit(response: Response)
    ensures GetProfilePrepare(InitReducer()) == Data(666, "iPhone", None, map[])
    ensures GetProfileSuccess(GetProfilePrepare(InitReducer()), response)
         == Data(response.id, response.name, response.age, map[])
    ensures GetProfileFail(GetProfilePrepare(InitReducer())) == Data(1000, "nokia", None, map[])
  {
  }

  /** From the initial data, a successful fetch by id fills exactly that record. */
  lemma GetProfileByIdFromInit(id: int, response: Response)
    ensures GetProfileByIdSuccess(InitReducer(), id, response) == Data(1, "init-name", None, map[id := response])
  {
  }

  // ---------------------------------------------------------------------------
  // The hooks as in-place edits of the draft
  // ---------------------------------------------------------------------------

  /** The draft a hook edits in place. */
  class ProfileDraft {
    var id: int
    var name: string
    var age: Option<int>
    var records: map<int, Response>

    function Snapshot(): Data
      reads this
    {
      Data(id, name, age, records)
    }

    constructor (state: Data)
      ensures Snapshot() == state
    {
      id := state.id;
      name := state.name;
      age := state.age;
      records := state.records;
    }

    /** `Object.assign(state, {id: 666, name: 'iPhone'})` */
    method GetProfileOnPrepare()
      modifies this
      ensures Snapshot() == GetProfilePrepare(old(Snapshot()))
    {
      id := 666;
      name := "iPhone";
    }

    /** `Object.assign(state, action.response)` */
    method GetProfileOnSuccess(response: Response)
      modifies this
      ensures Snapshot() == GetProfileSuccess(old(Snapshot()), response)
    {
      id := response.id;
      name := response.name;
      if response.age.Some? {
        age := response.age;
      }
    }

    /** `Object.assign(state, {id: 1000, name: 'nokia'})` */
    method GetProfileOnFail()
      modifies this
      ensures Snapshot() == GetProfileFail(old(Snapshot()))
    {
      id := 1000;
      name := "nokia";
    }

    /** `state.records[action.payload.id] = action.response` */
    method GetProfileByIdOnSuccess(payloadId: int, response: Response)
      modifies this
      ensures Snapshot() == GetProfileByIdSuccess(old(Snapshot()), payloadId, response)
    {
      records := records[payloadId := response];
    }
  }

  // ---------------------------------------------------------------------------
  // The fixture as an instance of the generic model
  // ---------------------------------------------------------------------------

  /**
   * Construct the fixture and declare its five request actions in field order
   * (getProfile, getNpmInfo, getNpmInfoWithTimeout, getProfileById, noMetaRequest).
   * `configs` are what each declaration contributes on registration.
   */
  method NewRequestModel(name: string, dataReducerName: string, configs: seq<BaseModel.ActionConfig>, debug: bool, proxyEnabled: bool)
    returns (m: BaseModel.Model<Data>)
    requires |configs| == 5
    ensures fresh(m) && m.Valid()
    ensures m.instanceName == BaseModel.InstanceName(name, "RequestModel")
    ensures m.reducer != null && fresh(m.reducer) && m.reducer.initData == InitReducer()
    ensures m.reducer.reducerName == dataReducerName && m.reducer.cases == [] && m.effects == []
    ensures forall root: map<string, Data> :: m.ConnectData(root) == Success(if dataReducerName in root then Some(root[dataReducerName]) else None)
    ensures |m.actions| == 5
    ensures forall i :: 0 <= i < 5 ==> m.actions[i].kind == BaseModel.Request && m.actions[i].config == configs[i]
    ensures !(debug && proxyEnabled) ==>
              m.sequenceCounter == 5 && forall i :: 0 <= i < 5 ==> m.actions[i].name == BaseModel.ActionName(m.instanceName, i + 1)
    ensures !(debug && proxyEnabled) ==> m.counterOf == [Some(1), Some(2), Some(3), Some(4), Some(5)]
    ensures debug && proxyEnabled ==>
              m.sequenceCounter == 0 && forall i :: 0 <= i < 5 ==> m.actions[i].name == m.instanceName
  {
    m := new BaseModel.Model(name, "RequestModel", Some(InitReducer()), dataReducerName, []);
    var getProfile := m.ActionRequest(configs[0], debug, proxyEnabled);
    var getNpmInfo := m.ActionRequest(configs[1], debug, proxyEnabled);
    var getNpmInfoWithTimeout := m.ActionRequest(configs[2], debug, proxyEnabled);
    var getProfileById := m.ActionRequest(configs[3], debug, proxyEnabled);
    var noMetaRequest := m.ActionRequest(configs[4], debug, proxyEnabled);
    assert m.actions == [getProfile, getNpmInfo, getNpmInfoWithTimeout, getProfileById, noMetaRequest];
  }

  /** With no instance name, the fixture's first action is "RequestModel.1" and its fourth "RequestModel.4". */
  lemma DefaultNames()
    ensures BaseModel.InstanceName("", "RequestModel") == "RequestModel"
    ensures BaseModel.ActionName("RequestModel", 1) == "RequestModel.1"
    ensures BaseModel.ActionName("RequestModel", 4) == "RequestModel.4"
  {
  }
}
