/** The parameters table: the value cell's save guard and keys, and the
    single row being edited. */
module ParametersTable {
  import opened Wrappers
  import opened ParametersSlice
  import opened TableColumns

  /** What saving the edited text does, given the number `parseFloat` read
      from it (`None` for not a number). */
  datatype SaveOutcome = Rejected(messageKey: string, fallback: string) | Accepted(value: real)

  function HandleSave(parsed: Option<real>): (r: SaveOutcome)
    ensures r.Accepted? <==> parsed.Some? && parsed.value >= 0.0
    ensures r.Accepted? ==> r.value == parsed.value
    ensures parsed.None? ==> r == Rejected("message.validNumber", "Please enter a valid number")
    ensures parsed.Some? && parsed.value < 0.0 ==> r == Rejected("validation.noNegatives", "Value cannot be negative")
  {
    if parsed.None? then Rejected("message.validNumber", "Please enter a valid number")
    else if parsed.value < 0.0 then Rejected("validation.noNegatives", "Value cannot be negative")
    else Accepted(parsed.value)
  }

  /** Zero is accepted, so a value can be saved back to the lower bound. */
  lemma ZeroIsAccepted()
    ensures HandleSave(Some(0.0)) == Accepted(0.0)
  {
  }

  /** What a key press in the editing cell does. */
  datatype KeyAction = SaveAttempt(outcome: SaveOutcome) | CancelEdit | NoAction

  function HandleKeyPress(key: string, parsed: Option<real>): (a: KeyAction)
    ensures a.SaveAttempt? <==> key == "Enter"
    ensures a.CancelEdit? <==> key == "Escape"
    ensures a.SaveAttempt? ==> a.outcome == HandleSave(parsed)
  {
    if key == "Enter" then SaveAttempt(HandleSave(parsed))
    else if key == "Escape" then CancelEdit
    else NoAction
  }

  /** The no-groups message is shown exactly when there is no group. */
  predicate ShowsNoGroupsMessage(groups: seq<ParameterGroup>)
  {
    |groups| == 0
  }

  /** No reducer adds or drops a group, so the message can only come from a
      stored record whose group list is empty. */
  lemma NoGroupsOnlyFromStorage(storage: map<string, StoredParameters>)
    ensures ShowsNoGroupsMessage(LoadState(storage).groups) ==>
      StorageKey in storage && storage[StorageKey].groups == Some([])
    ensures !ShowsNoGroupsMessage(InitialGroups)
  {
  }

  /** The table's editing state: the id of the row being edited, or the
      empty string; one key means at most one id is editing at a time. */
  class EditingTable {
    var editingKey: string
    const store: ParametersStore

    constructor (store: ParametersStore)
      ensures editingKey == "" && this.store == store
    {
      editingKey := "";
      this.store := store;
    }

    predicate IsEditing(record: Parameter)
      reads this
    {
      record.id == editingKey
    }

    /** The edit button is disabled exactly on the rows that are editing. */
    lemma EditDisabledExactlyWhenEditing(record: Parameter)
      ensures EditDisabled(record, editingKey) <==> IsEditing(record)
    {
    }

    /** Starts editing a row; exactly the rows with its id are editing. */
    method Edit(record: Parameter)
      modifies this
      ensures editingKey == record.id
      ensures forall other: Parameter :: IsEditing(other) <==> other.id == record.id
    {
      editingKey := record.id;
    }

    /** Stops editing: no row with a non-empty id is editing. */
    method Cancel()
      modifies this
      ensures editingKey == ""
      ensures forall other: Parameter :: other.id != "" ==> !IsEditing(other)
    {
      editingKey := "";
    }

    /** Dispatches the value update, then stops editing. */
    method Save(gid: string, pid: string, v: real)
      modifies this, store
      ensures editingKey == ""
      ensures store.groups == UpdatedValue(old(store.groups), gid, pid, v)
      ensures store.availableElements == old(store.availableElements)
      ensures store.loading == old(store.loading) && store.error == old(store.error)
      ensures store.storage == if Finds(old(store.groups), gid, pid)
        then old(store.storage)[StorageKey := Snapshot(store.State())] else old(store.storage)
    {
      store.UpdateParameter(gid, pid, v);
      editingKey := "";
    }

    /** Dispatches the removal; the editing state is untouched. */
    method Delete(gid: string, pid: string)
      modifies store
      ensures store.groups == Removed(old(store.groups), gid, pid)
      ensures store.availableElements == old(store.availableElements)
      ensures store.loading == old(store.loading) && store.error == old(store.error)
      ensures store.storage == if FirstGroupIndex(old(store.groups), gid) < |old(store.groups)|
        then old(store.storage)[StorageKey := Snapshot(store.State())] else old(store.storage)
    {
      store.RemoveParameter(gid, pid);
    }

    /** A value cell's save, as the columns wire it: an accepted value is
        saved to the row's own group and id; a rejected one changes nothing
        and the row stays in editing. */
    method SaveCell(record: Parameter, parsed: Option<real>)
      modifies this, store
      ensures HandleSave(parsed).Accepted? ==>
        && editingKey == ""
        && store.groups == UpdatedValue(old(store.groups), record.group, record.id, parsed.value)
        && store.storage == if Finds(old(store.groups), record.group, record.id)
          then old(store.storage)[StorageKey := Snapshot(store.State())] else old(store.storage)
      ensures HandleSave(parsed).Rejected? ==>
        editingKey == old(editingKey) && store.groups == old(store.groups) && store.storage == old(store.storage)
      ensures store.availableElements == old(store.availableElements)
      ensures store.loading == old(store.loading) && store.error == old(store.error)
    {
      var outcome := HandleSave(parsed);
      if outcome.Accepted? {
        var target := RowTarget(record);
        Save(target.groupId, target.parameterId, outcome.value);
      }
    }
  }
}
