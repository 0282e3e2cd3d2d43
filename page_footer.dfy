/** The page footer: on the chemistry page a bar of unit buttons and a
    dropdown of the remaining units, and below it the content tabs for the
    current selection. */
module PageFooter {
  import opened Wrappers
  import opened NavigationSlice
  import opened UrlSync
  import Strings

  /** The four process units, in display order. */
  const AllUnits: seq<string> := ["ion-exchange", "reactor", "cooling-towers", "compliance-points"]

  /** The four flow-chemistry units, in display order. */
  const FlowChemistryUnits: seq<string> := ["incoming-water", "autoci-lab", "chemical-injection", "clear-chemistry"]

  /** The two units that get a button of their own instead of a dropdown entry. */
  predicate IsDirectTab(key: string)
  {
    key == "reactor" || key == "cooling-towers"
  }

  /** A unit key: lower-case ASCII letters and dashes, never empty. */
  predicate IsUnitKey(s: string)
  {
    s != [] && forall i :: 0 <= i < |s| ==> Strings.IsLowerAscii(s[i]) || s[i] == '-'
  }

  lemma UnitKeyIsSegment(s: string)
    requires IsUnitKey(s)
    ensures s != "" && '/' !in s
  {
  }

  /** Every unit the footer offers has a well-formed key. */
  lemma UnitKeysWellFormed(k: string)
    requires k in AllUnits || k in FlowChemistryUnits
    ensures IsUnitKey(k)
  {
  }

  /** `keys.filter(k => k !== 'reactor' && k !== 'cooling-towers')`, order kept. */
  function WithoutDirectTabs(keys: seq<string>): (r: seq<string>)
    ensures forall k :: k in r <==> k in keys && !IsDirectTab(k)
    ensures |r| <= |keys|
  {
    if keys == [] then []
    else (if IsDirectTab(keys[0]) then [] else [keys[0]]) + WithoutDirectTabs(keys[1..])
  }

  /** The dropdown entries: the process units without the two direct tabs,
      then every flow-chemistry unit. */
  function DropdownUnits(): seq<string>
  {
    WithoutDirectTabs(AllUnits) + FlowChemistryUnits
  }

  /** The dropdown entries, in order. */
  lemma DropdownUnitsInOrder()
    ensures DropdownUnits() == ["ion-exchange", "compliance-points", "incoming-water", "autoci-lab", "chemical-injection", "clear-chemistry"]
  {
    assert WithoutDirectTabs(AllUnits[3..]) == ["compliance-points"];
    assert WithoutDirectTabs(AllUnits[2..]) == ["compliance-points"];
    assert WithoutDirectTabs(AllUnits[1..]) == ["compliance-points"];
  }

  /** The dropdown lists exactly the units that have no button. */
  lemma DropdownUnitsAreTheRest(k: string)
    ensures k in DropdownUnits() <==> (k in AllUnits || k in FlowChemistryUnits) && !IsDirectTab(k)
  {
  }

  /** The dropdown shows the selected tab unless it is one of the two
      units that have a button. */
  function CurrentDropdownValue(tab: string): (r: Option<string>)
    ensures r.None? <==> IsDirectTab(tab)
    ensures r.Some? ==> r.value == tab
  {
    if tab == "reactor" || tab == "cooling-towers" then None else Some(tab)
  }

  /** Every dropdown entry, once selected, is shown as the dropdown's value. */
  lemma DropdownShowsEverySelection(k: string)
    requires k in DropdownUnits()
    ensures CurrentDropdownValue(k) == Some(k)
  {
    DropdownUnitsAreTheRest(k);
  }

  /** A unit button click or dropdown choice: the locally selected tab and
      the path navigated to. */
  datatype UnitSelection = UnitSelection(tab: string, path: string)

  function SelectUnit(key: string): UnitSelection
  {
    UnitSelection(key, "/inputs/chemistry/" + key)
  }

  /** Choosing any offered unit selects that unit in the store from any
      prior selection, and the footer's own tab agrees with the store, so
      mirroring the store's unit back into the tab changes nothing. */
  lemma SelectUnitAgreesWithStore(st: NavState, key: string)
    requires key in AllUnits || key in FlowChemistryUnits
    ensures var sel := SelectUnit(key);
      SyncState(st, sel.path) == NavState("inputs", "chemistry", key, "")
      && SyncState(st, sel.path).unit == sel.tab
  {
    UnitKeysWellFormed(key);
    UnitKeyIsSegment(key);
    SyncReachesUnit(st, key);
  }

  /** Whether the unit bar is shown. */
  predicate ShowUnitBar(nav: NavState)
  {
    nav.section == "inputs" && nav.child == "chemistry"
  }

  /** The keys of the content tabs for a selection. */
  function ContentTabKeys(nav: NavState): (keys: seq<string>)
    ensures keys != []
    ensures ShowUnitBar(nav) && nav.unit != "" ==> |keys| == 3
    ensures !(ShowUnitBar(nav) && nav.unit != "") ==> |keys| <= 2
  {
    if ShowUnitBar(nav) && nav.unit == "reactor" then ["effluent-ph", "effluent-flow", "effluent-quality"]
    else if ShowUnitBar(nav) && nav.unit == "cooling-towers" then ["operating-temp", "operating-pressure", "operating-flow"]
    else if ShowUnitBar(nav) && nav.unit != "" then ["parameters", "monitoring", "controls"]
    else if nav.section == "map" then ["overview", "alerts"]
    else if nav.section == "calculate" then ["models", "results"]
    else if nav.section == "outputs" then ["reports", "exports"]
    else ["info"]
  }

  /** The chemistry page without a unit falls through to the fallback tab,
      like any other inputs page. */
  lemma ChemistryWithoutUnitFallsBack(nav: NavState)
    requires nav.section == "inputs" && nav.unit == ""
    ensures ContentTabKeys(nav) == ["info"]
  {
  }
}
