/** The parameters slice of the store: groups of laboratory parameters, the
    element list offered when adding one, and the loading and error flags. */
module ParametersSlice {
  import opened Wrappers

  /** One parameter row; the optional fields may be absent. The value is a
      JavaScript number, modelled as a real. */
  datatype Parameter = Parameter(
    id: string, name: string, parameter: string, value: real, group: string,
    unit: Option<string>, alarm: Option<string>, description: Option<string>)

  datatype ParameterGroup = ParameterGroup(id: string, name: string, description: string, parameters: seq<Parameter>)

  /** A chemical element that can be added as a parameter; `labelText` is
      the source's `label` field (a reserved word in Dafny). */
  datatype Element = Element(labelText: string, value: string, formula: Option<string>)

  datatype ParametersState = ParametersState(
    groups: seq<ParameterGroup>, availableElements: seq<Element>, loading: bool, error: Option<string>)

  /** A stored record: any of the four fields may be missing, and each
      present one overrides the initial state at startup. */
  datatype StoredParameters = StoredParameters(
    groups: Option<seq<ParameterGroup>>, availableElements: Option<seq<Element>>,
    loading: Option<bool>, error: Option<Option<string>>)

  const StorageKey: string := "parametersState"

  const InitialGroups: seq<ParameterGroup> := [
    ParameterGroup("general", "General Parameters", "General water analysis parameters", [
      Parameter("1", "pH Level", "pH", 7.25, "general", Some(""), Some("Normal"), Some("Acidity/alkalinity measurement")),
      Parameter("2", "Water Temperature", "Temperature", 25.50, "general", Some("°C"), Some("Normal"), Some("Water temperature monitoring")),
      Parameter("3", "Water Clarity", "Turbidity", 1.20, "general", Some("NTU"), Some("Normal"), Some("Measure of water cloudiness"))
    ]),
    ParameterGroup("chemical", "Chemical Parameters", "Chemical composition and properties", [
      Parameter("4", "Free Chlorine", "Chlorine", 2.10, "chemical", Some("mg/L"), Some("Normal"), Some("Chlorine disinfectant level")),
      Parameter("5", "Fluoride Content", "Fluoride", 0.80, "chemical", Some("mg/L"), Some("Normal"), Some("Fluoride concentration in water"))
    ])
  ]

  const InitialState: ParametersState := ParametersState(InitialGroups, [], false, None)

  /** `{...initialState, ...stored}`: each field the record holds wins. */
  function Merge(base: ParametersState, stored: StoredParameters): (r: ParametersState)
    ensures r.groups == stored.groups.GetOr(base.groups)
    ensures r.availableElements == stored.availableElements.GetOr(base.availableElements)
    ensures r.loading == stored.loading.GetOr(base.loading)
    ensures r.error == stored.error.GetOr(base.error)
  {
    ParametersState(
      stored.groups.GetOr(base.groups),
      stored.availableElements.GetOr(base.availableElements),
      stored.loading.GetOr(base.loading),
      stored.error.GetOr(base.error))
  }

  /** The record written after a change: every field of the state. */
  function Snapshot(st: ParametersState): StoredParameters
  {
    StoredParameters(Some(st.groups), Some(st.availableElements), Some(st.loading), Some(st.error))
  }

  /** Startup: the stored record merged over the initial state, or the
      initial state when nothing (or nothing parseable) is stored. */
  function LoadState(storage: map<string, StoredParameters>): ParametersState
  {
    if StorageKey in storage then Merge(InitialState, storage[StorageKey]) else InitialState
  }

  /** Loading what was last written gives back the state that wrote it. */
  lemma LoadAfterSave(storage: map<string, StoredParameters>, st: ParametersState)
    ensures LoadState(storage[StorageKey := Snapshot(st)]) == st
  {
  }

  /** A record holding only some fields keeps the initial value of the rest. */
  lemma LoadPartialRecord(storage: map<string, StoredParameters>)
    requires StorageKey in storage && storage[StorageKey].groups.None?
    ensures LoadState(storage).groups == InitialGroups
  {
  }

  /** Index of the first group with id `id`, or `|groups|` when none has it
      (`groups.find(g => g.id === id)`). */
  function FirstGroupIndex(groups: seq<ParameterGroup>, id: string): (i: nat)
    ensures i <= |groups|
    ensures i < |groups| ==> groups[i].id == id
    ensures forall j :: 0 <= j < i ==> groups[j].id != id
  {
    if groups == [] then 0
    else if groups[0].id == id then 0
    else 1 + FirstGroupIndex(groups[1..], id)
  }

  /** Index of the first parameter with id `id`, or `|ps|` when none has it. */
  function FirstParameterIndex(ps: seq<Parameter>, id: string): (i: nat)
    ensures i <= |ps|
    ensures i < |ps| ==> ps[i].id == id
    ensures forall j :: 0 <= j < i ==> ps[j].id != id
  {
    if ps == [] then 0
    else if ps[0].id == id then 0
    else 1 + FirstParameterIndex(ps[1..], id)
  }

  /** The search the reducers run, as a loop; it agrees with `FirstGroupIndex`. */
  method FindGroup(groups: seq<ParameterGroup>, id: string) returns (i: nat)
    ensures i == FirstGroupIndex(groups, id)
  {
    i := 0;
    while i < |groups| && groups[i].id != id
      invariant i <= |groups|
      invariant forall j :: 0 <= j < i ==> groups[j].id != id
    {
      i := i + 1;
    }
  }

  /** The search inside one group, as a loop; it agrees with `FirstParameterIndex`. */
  method FindParameter(ps: seq<Parameter>, id: string) returns (i: nat)
    ensures i == FirstParameterIndex(ps, id)
  {
    i := 0;
    while i < |ps| && ps[i].id != id
      invariant i <= |ps|
      invariant forall j :: 0 <= j < i ==> ps[j].id != id
    {
      i := i + 1;
    }
  }

  /** Whether `updateParameter` finds its target: the first group with id
      `gid` holds a parameter with id `pid`. */
  predicate Finds(groups: seq<ParameterGroup>, gid: string, pid: string)
  {
    var gi := FirstGroupIndex(groups, gid);
    gi < |groups| && FirstParameterIndex(groups[gi].parameters, pid) < |groups[gi].parameters|
  }

  /** The groups after `updateParameter`: only the value of the first
      matching parameter of the first matching group changes. */
  function UpdatedValue(groups: seq<ParameterGroup>, gid: string, pid: string, v: real): (r: seq<ParameterGroup>)
    ensures |r| == |groups|
    ensures !Finds(groups, gid, pid) ==> r == groups
    ensures Finds(groups, gid, pid) ==>
      var gi := FirstGroupIndex(groups, gid);
      var ps := groups[gi].parameters;
      var pi := FirstParameterIndex(ps, pid);
      && (forall j :: 0 <= j < |groups| && j != gi ==> r[j] == groups[j])
      && r[gi] == groups[gi].(parameters := r[gi].parameters)
      && |r[gi].parameters| == |ps|
      && (forall k :: 0 <= k < |ps| && k != pi ==> r[gi].parameters[k] == ps[k])
      && r[gi].parameters[pi] == ps[pi].(value := v)
  {
    if Finds(groups, gid, pid) then
      var gi := FirstGroupIndex(groups, gid);
      var ps := groups[gi].parameters;
      var pi := FirstParameterIndex(ps, pid);
      groups[gi := groups[gi].(parameters := ps[pi := ps[pi].(value := v)])]
    else groups
  }

  /** Updating twice with the same value is updating once. */
  lemma UpdatedValueIdempotent(groups: seq<ParameterGroup>, gid: string, pid: string, v: real)
    ensures UpdatedValue(UpdatedValue(groups, gid, pid, v), gid, pid, v) == UpdatedValue(groups, gid, pid, v)
  {
    var r := UpdatedValue(groups, gid, pid, v);
    if Finds(groups, gid, pid) {
      var gi := FirstGroupIndex(groups, gid);
      var pi := FirstParameterIndex(groups[gi].parameters, pid);
      SameIdsSameIndex(groups, r, gid);
      SameParameterIdsSameIndex(groups[gi].parameters, r[gi].parameters, pid);
      assert r[gi].parameters[pi := r[gi].parameters[pi].(value := v)] == r[gi].parameters;
    }
  }

  /** Group lists with the same ids find the same group. */
  lemma {:induction false} SameIdsSameIndex(a: seq<ParameterGroup>, b: seq<ParameterGroup>, id: string)
    requires |a| == |b| && forall j :: 0 <= j < |a| ==> a[j].id == b[j].id
    ensures FirstGroupIndex(a, id) == FirstGroupIndex(b, id)
  {
    if a != [] && a[0].id != id {
      SameIdsSameIndex(a[1..], b[1..], id);
    }
  }

  /** Parameter lists with the same ids find the same parameter. */
  lemma {:induction false} SameParameterIdsSameIndex(a: seq<Parameter>, b: seq<Parameter>, id: string)
    requires |a| == |b| && forall j :: 0 <= j < |a| ==> a[j].id == b[j].id
    ensures FirstParameterIndex(a, id) == FirstParameterIndex(b, id)
  {
    if a != [] && a[0].id != id {
      SameParameterIdsSameIndex(a[1..], b[1..], id);
    }
  }

  /** The parameter `addParameter` builds: `group` is the target group id;
      unit, alarm and description default to '', 'Normal' and '' when
      absent or empty. `stamp` stands for `Date.now()`. */
  function NewParameter(
    gid: string, name: string, parameter: string, value: real,
    unit: Option<string>, alarm: Option<string>, description: Option<string>, stamp: string): (p: Parameter)
    ensures p.id == "param_" + stamp && p.group == gid
    ensures p.name == name && p.parameter == parameter && p.value == value
    ensures p.unit.Some? && p.alarm.Some? && p.description.Some?
    ensures unit.None? || unit.value == "" ==> p.unit == Some("")
    ensures alarm.None? || alarm.value == "" ==> p.alarm == Some("Normal")
    ensures description.None? || description.value == "" ==> p.description == Some("")
    ensures unit.Some? && unit.value != "" ==> p.unit == unit
    ensures alarm.Some? && alarm.value != "" ==> p.alarm == alarm
    ensures description.Some? && description.value != "" ==> p.description == description
  {
    Parameter("param_" + stamp, name, parameter, value, gid,
      Some(if unit.Some? && unit.value != "" then unit.value else ""),
      Some(if alarm.Some? && alarm.value != "" then alarm.value else "Normal"),
      Some(if description.Some? && description.value != "" then description.value else ""))
  }

  /** The groups after `addParameter`: `p` appended to the first group with
      id `gid`; nothing changes when there is none. */
  function Appended(groups: seq<ParameterGroup>, gid: string, p: Parameter): (r: seq<ParameterGroup>)
    ensures |r| == |groups|
    ensures FirstGroupIndex(groups, gid) == |groups| ==> r == groups
    ensures FirstGroupIndex(groups, gid) < |groups| ==>
      var gi := FirstGroupIndex(groups, gid);
      && (forall j :: 0 <= j < |groups| && j != gi ==> r[j] == groups[j])
      && r[gi] == groups[gi].(parameters := groups[gi].parameters + [p])
  {
    var gi := FirstGroupIndex(groups, gid);
    if gi < |groups| then groups[gi := groups[gi].(parameters := groups[gi].parameters + [p])]
    else groups
  }

  /** `ps.filter(p => p.id !== id)`. */
  function WithoutParameter(ps: seq<Parameter>, id: string): (r: seq<Parameter>)
    ensures |r| <= |ps|
    ensures forall k :: 0 <= k < |r| ==> r[k].id != id
    ensures forall p :: p in r ==> p in ps
    ensures forall p :: p in ps && p.id != id ==> p in r
  {
    if ps == [] then []
    else if ps[0].id == id then WithoutParameter(ps[1..], id)
    else [ps[0]] + WithoutParameter(ps[1..], id)
  }

  /** Filtering keeps order: it works piecewise on a concatenation. */
  lemma {:induction false} WithoutParameterConcat(a: seq<Parameter>, b: seq<Parameter>, id: string)
    ensures WithoutParameter(a + b, id) == WithoutParameter(a, id) + WithoutParameter(b, id)
  {
    if a != [] {
      assert (a + b)[1..] == a[1..] + b;
      WithoutParameterConcat(a[1..], b, id);
    } else {
      assert a + b == b;
    }
  }

  /** A list without the id is left exactly as it is. */
  lemma {:induction false} WithoutAbsentParameter(ps: seq<Parameter>, id: string)
    requires forall k :: 0 <= k < |ps| ==> ps[k].id != id
    ensures WithoutParameter(ps, id) == ps
  {
    if ps != [] {
      WithoutAbsentParameter(ps[1..], id);
      assert [ps[0]] + ps[1..] == ps;
    }
  }

  lemma WithoutParameterIdempotent(ps: seq<Parameter>, id: string)
    ensures WithoutParameter(WithoutParameter(ps, id), id) == WithoutParameter(ps, id)
  {
    WithoutAbsentParameter(WithoutParameter(ps, id), id);
  }

  /** Removing the parameter just appended, when its id was new to the
      list, gives back the list. */
  lemma RemoveUndoesAppend(ps: seq<Parameter>, p: Parameter)
    requires forall k :: 0 <= k < |ps| ==> ps[k].id != p.id
    ensures WithoutParameter(ps + [p], p.id) == ps
  {
    WithoutParameterConcat(ps, [p], p.id);
    WithoutAbsentParameter(ps, p.id);
  }

  /** The groups after `removeParameter`: the first group with id `gid` loses
      every parameter with id `pid`; nothing changes when there is none. */
  function Removed(groups: seq<ParameterGroup>, gid: string, pid: string): (r: seq<ParameterGroup>)
    ensures |r| == |groups|
    ensures FirstGroupIndex(groups, gid) == |groups| ==> r == groups
    ensures FirstGroupIndex(groups, gid) < |groups| ==>
      var gi := FirstGroupIndex(groups, gid);
      && (forall j :: 0 <= j < |groups| && j != gi ==> r[j] == groups[j])
      && r[gi] == groups[gi].(parameters := WithoutParameter(groups[gi].parameters, pid))
  {
    var gi := FirstGroupIndex(groups, gid);
    if gi < |groups| then groups[gi := groups[gi].(parameters := WithoutParameter(groups[gi].parameters, pid))]
    else groups
  }

  lemma RemovedIdempotent(groups: seq<ParameterGroup>, gid: string, pid: string)
    ensures Removed(Removed(groups, gid, pid), gid, pid) == Removed(groups, gid, pid)
  {
    var r := Removed(groups, gid, pid);
    SameIdsSameIndex(groups, r, gid);
    var gi := FirstGroupIndex(groups, gid);
    if gi < |groups| {
      WithoutParameterIdempotent(groups[gi].parameters, pid);
    }
  }

  /** The groups after `updateGroupDescription`: only that group's
      description changes. */
  function Described(groups: seq<ParameterGroup>, gid: string, d: string): (r: seq<ParameterGroup>)
    ensures |r| == |groups|
    ensures FirstGroupIndex(groups, gid) == |groups| ==> r == groups
    ensures FirstGroupIndex(groups, gid) < |groups| ==>
      var gi := FirstGroupIndex(groups, gid);
      && (forall j :: 0 <= j < |groups| && j != gi ==> r[j] == groups[j])
      && r[gi] == groups[gi].(description := d)
  {
    var gi := FirstGroupIndex(groups, gid);
    if gi < |groups| then groups[gi := groups[gi].(description := d)] else groups
  }

  /** Every parameter's `group` field names the group that holds it. */
  predicate GroupFieldsConsistent(groups: seq<ParameterGroup>)
  {
    forall gi, pi :: 0 <= gi < |groups| && 0 <= pi < |groups[gi].parameters| ==>
      groups[gi].parameters[pi].group == groups[gi].id
  }

  lemma InitialGroupsConsistent()
    ensures GroupFieldsConsistent(InitialGroups)
  {
  }

  /** The four group operations keep every parameter in the group its
      `group` field names, given that an added parameter is built for the
      group it is added to. */
  lemma OperationsKeepGroupFields(groups: seq<ParameterGroup>, gid: string, pid: string, v: real, d: string, p: Parameter)
    requires GroupFieldsConsistent(groups)
    requires p.group == gid
    ensures GroupFieldsConsistent(UpdatedValue(groups, gid, pid, v))
    ensures GroupFieldsConsistent(Appended(groups, gid, p))
    ensures GroupFieldsConsistent(Removed(groups, gid, pid))
    ensures GroupFieldsConsistent(Described(groups, gid, d))
  {
    var gi := FirstGroupIndex(groups, gid);
    if gi < |groups| {
      var r := Removed(groups, gid, pid);
      forall k | 0 <= k < |r[gi].parameters|
        ensures r[gi].parameters[k].group == r[gi].id
      {
        assert r[gi].parameters[k] in groups[gi].parameters;
      }
      var a := Appended(groups, gid, p);
      forall k | 0 <= k < |a[gi].parameters|
        ensures a[gi].parameters[k].group == a[gi].id
      {
        if k < |groups[gi].parameters| {
          assert a[gi].parameters[k] == groups[gi].parameters[k];
        }
      }
    }
  }

  /** The parameters slice, whose reducers find a group, mutate it in place,
      and write the whole state to storage after each change. */
  class ParametersStore {
    var groups: seq<ParameterGroup>
    var availableElements: seq<Element>
    var loading: bool
    var error: Option<string>
    var storage: map<string, StoredParameters>

    function State(): ParametersState
      reads this
    {
      ParametersState(groups, availableElements, loading, error)
    }

    constructor (storage: map<string, StoredParameters>)
      ensures State() == LoadState(storage)
      ensures this.storage == storage
    {
      var st := LoadState(storage);
      groups, availableElements, loading, error := st.groups, st.availableElements, st.loading, st.error;
      this.storage := storage;
    }

    /** Sets the value of the target parameter; stores only when it exists. */
    method UpdateParameter(gid: string, pid: string, v: real)
      modifies this
      ensures groups == UpdatedValue(old(groups), gid, pid, v)
      ensures availableElements == old(availableElements) && loading == old(loading) && error == old(error)
      ensures storage == if Finds(old(groups), gid, pid) then old(storage)[StorageKey := Snapshot(State())] else old(storage)
    {
      var gi := FindGroup(groups, gid);
      if gi < |groups| {
        var ps := groups[gi].parameters;
        var pi := FindParameter(ps, pid);
        if pi < |ps| {
          groups := groups[gi := groups[gi].(parameters := ps[pi := ps[pi].(value := v)])];
          storage := storage[StorageKey := Snapshot(State())];
        }
      }
    }

    /** Appends a new parameter to the target group; stores only when the
        group exists. */
    method AddParameter(
      gid: string, name: string, parameter: string, value: real,
      unit: Option<string>, alarm: Option<string>, description: Option<string>, stamp: string)
      modifies this
      ensures groups == Appended(old(groups), gid, NewParameter(gid, name, parameter, value, unit, alarm, description, stamp))
      ensures availableElements == old(availableElements) && loading == old(loading) && error == old(error)
      ensures storage == if FirstGroupIndex(old(groups), gid) < |old(groups)| then old(storage)[StorageKey := Snapshot(State())] else old(storage)
    {
      var gi := FindGroup(groups, gid);
      if gi < |groups| {
        var p := NewParameter(gid, name, parameter, value, unit, alarm, description, stamp);
        groups := groups[gi := groups[gi].(parameters := groups[gi].parameters + [p])];
        storage := storage[StorageKey := Snapshot(State())];
      }
    }

    /** Filters the parameter out of the target group; stores whenever the
        group exists, even if no parameter had that id. */
    method RemoveParameter(gid: string, pid: string)
      modifies this
      ensures groups == Removed(old(groups), gid, pid)
      ensures availableElements == old(availableElements) && loading == old(loading) && error == old(error)
      ensures storage == if FirstGroupIndex(old(groups), gid) < |old(groups)| then old(storage)[StorageKey := Snapshot(State())] else old(storage)
    {
      var gi := FindGroup(groups, gid);
      if gi < |groups| {
        groups := groups[gi := groups[gi].(parameters := WithoutParameter(groups[gi].parameters, pid))];
        storage := storage[StorageKey := Snapshot(State())];
      }
    }

    /** Replaces the target group's description. */
    method UpdateGroupDescription(gid: string, d: string)
      modifies this
      ensures groups == Described(old(groups), gid, d)
      ensures availableElements == old(availableElements) && loading == old(loading) && error == old(error)
      ensures storage == if FirstGroupIndex(old(groups), gid) < |old(groups)| then old(storage)[StorageKey := Snapshot(State())] else old(storage)
    {
      var gi := FindGroup(groups, gid);
      if gi < |groups| {
        groups := groups[gi := groups[gi].(description := d)];
        storage := storage[StorageKey := Snapshot(State())];
      }
    }

    /** Replaces the element list; nothing is stored. */
    method SetAvailableElements(elements: seq<Element>)
      modifies this
      ensures State() == old(State()).(availableElements := elements)
      ensures storage == old(storage)
    {
      availableElements := elements;
    }

    /** Sets the loading flag; nothing is stored. */
    method SetLoading(b: bool)
      modifies this
      ensures State() == old(State()).(loading := b)
      ensures storage == old(storage)
    {
      loading := b;
    }

    /** Sets or clears the error; nothing is stored. */
    method SetError(e: Option<string>)
      modifies this
      ensures State() == old(State()).(error := e)
      ensures storage == old(storage)
    {
      error := e;
    }
  }
}
