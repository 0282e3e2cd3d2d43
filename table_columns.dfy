/** The columns of the parameters table: the alarm tag colour, the text
    shown for missing values, and which row a cell's save or delete acts on. */
module TableColumns {
  import opened Wrappers
  import opened Strings
  import opened ParametersSlice

  datatype TagColor = Red | Orange | Green | DefaultColor

  /** The alarm tag colour, chosen case-insensitively; an absent alarm or any
      other text gets the default colour. */
  function AlarmColor(alarm: Option<string>): (c: TagColor)
    ensures alarm.None? ==> c == DefaultColor
    ensures alarm.Some? ==> (c == Red <==> ToLower(alarm.value) == "critical")
    ensures alarm.Some? ==> (c == Orange <==> ToLower(alarm.value) == "warning")
    ensures alarm.Some? ==> (c == Green <==> ToLower(alarm.value) == "normal")
  {
    if alarm.None? then DefaultColor
    else
      var status := ToLower(alarm.value);
      if status == "critical" then Red
      else if status == "warning" then Orange
      else if status == "normal" then Green
      else DefaultColor
  }

  /** Case does not matter: an alarm and its lower-cased form get the same
      colour. */
  lemma AlarmColorIgnoresCase(s: string)
    ensures AlarmColor(Some(s)) == AlarmColor(Some(ToLower(s)))
  {
    ToLowerIdempotent(s);
  }

  /** The alarm tag's text: the alarm, or "Normal" when empty or absent. */
  function AlarmText(alarm: Option<string>): string
  {
    StringOr(alarm, "Normal")
  }

  /** The unit and description cells: the value, or "-" when empty or absent. */
  function PlaceholderText(s: Option<string>): string
  {
    StringOr(s, "-")
  }

  /** An absent or empty text shows a dash, any other text shows itself;
      a parameter added without a unit or description shows a dash there. */
  lemma PlaceholderShowsDash(s: Option<string>, gid: string, name: string, parameter: string, value: real,
                             alarm: Option<string>, stamp: string)
    ensures s.None? || s.value == "" ==> PlaceholderText(s) == "-"
    ensures s.Some? && s.value != "" ==> PlaceholderText(s) == s.value
    ensures var p := NewParameter(gid, name, parameter, value, None, alarm, None, stamp);
      PlaceholderText(p.unit) == "-" && PlaceholderText(p.description) == "-"
  {
  }

  /** A parameter added without an alarm shows "Normal" in green. */
  lemma DefaultAlarmShowsNormal(gid: string, name: string, parameter: string, value: real,
                                unit: Option<string>, description: Option<string>, stamp: string)
    ensures var p := NewParameter(gid, name, parameter, value, unit, None, description, stamp);
      AlarmText(p.alarm) == "Normal" && AlarmColor(p.alarm) == Green
  {
    var lowered := ToLower("Normal");
    assert lowered[0] == 'n';
    assert lowered == "normal";
  }

  /** The group and parameter a row's save and delete act on. */
  datatype Target = Target(groupId: string, parameterId: string)

  /** Both actions of a row are wired to that row's own `group` and `id`. */
  function RowTarget(record: Parameter): Target
  {
    Target(record.group, record.id)
  }

  /** The edit button is disabled on the row being edited. */
  predicate EditDisabled(record: Parameter, editingKey: string)
  {
    record.id == editingKey
  }

  /** Saving a cell changes the row it belongs to: when every parameter's
      `group` field names its group and the row is the first with its id in
      the first group with that id, the save sets exactly that row's value. */
  lemma {:induction false} SaveRoutesToOwnRow(groups: seq<ParameterGroup>, gi: nat, pi: nat, v: real)
    requires GroupFieldsConsistent(groups)
    requires gi < |groups| && pi < |groups[gi].parameters|
    requires FirstGroupIndex(groups, groups[gi].id) == gi
    requires FirstParameterIndex(groups[gi].parameters, groups[gi].parameters[pi].id) == pi
    ensures var t := RowTarget(groups[gi].parameters[pi]);
      var r := UpdatedValue(groups, t.groupId, t.parameterId, v);
      && r[gi].parameters[pi] == groups[gi].parameters[pi].(value := v)
      && (forall j :: 0 <= j < |groups| && j != gi ==> r[j] == groups[j])
      && (forall k :: 0 <= k < |groups[gi].parameters| && k != pi ==> r[gi].parameters[k] == groups[gi].parameters[k])
  {
    var record := groups[gi].parameters[pi];
    assert record.group == groups[gi].id;
    assert Finds(groups, record.group, record.id);
  }
}
