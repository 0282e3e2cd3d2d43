/** The unit tabs shown on the chemistry page: two tab rows, process units
    and flow-chemistry units, each navigating to the chosen unit. */
module UnitNavigation {
  import opened NavigationSlice
  import opened UrlSync
  import PageFooter

  /** The component renders only on the chemistry page. */
  predicate Visible(nav: NavState)
  {
    nav.section == "inputs" && nav.child == "chemistry"
  }

  const UnitTabs: seq<string> := ["ion-exchange", "reactor", "cooling-towers", "compliance-points"]

  const FlowChemistryTabs: seq<string> := ["incoming-water", "autoci-lab", "chemical-injection", "clear-chemistry"]

  /** Where a tab of either row navigates. */
  function TabPath(key: string): string
  {
    "/inputs/chemistry/" + key
  }

  /** The local tab after the store's unit changed: it follows the unit. */
  function TabAfterUnitChange(tab: string, oldUnit: string, newUnit: string): (r: string)
    ensures oldUnit != newUnit ==> r == newUnit
    ensures oldUnit == newUnit ==> r == tab
  {
    if oldUnit != newUnit then newUnit else tab
  }

  /** The two tab rows share no key. */
  lemma TabRowsDisjoint(k: string)
    ensures !(k in UnitTabs && k in FlowChemistryTabs)
  {
  }

  /** The tab rows hold the same eight units the footer offers, and the
      same ones as its buttons and dropdown together. */
  lemma SameUnitsAsFooter(k: string)
    ensures k in UnitTabs <==> k in PageFooter.AllUnits
    ensures k in FlowChemistryTabs <==> k in PageFooter.FlowChemistryUnits
    ensures k in UnitTabs || k in FlowChemistryTabs <==> k in PageFooter.DropdownUnits() || PageFooter.IsDirectTab(k)
  {
    PageFooter.DropdownUnitsAreTheRest(k);
  }

  /** Clicking any tab of either row selects exactly that unit in the
      store, whatever was selected before; the mirrored tab then stays on
      the clicked key. */
  lemma {:induction false} TabClickSelectsUnit(st: NavState, k: string)
    requires k in UnitTabs || k in FlowChemistryTabs
    ensures SyncState(st, TabPath(k)) == NavState("inputs", "chemistry", k, "")
    ensures Visible(SyncState(st, TabPath(k)))
    ensures TabAfterUnitChange(k, st.unit, SyncState(st, TabPath(k)).unit) == k
  {
    SameUnitsAsFooter(k);
    PageFooter.UnitKeysWellFormed(k);
    PageFooter.UnitKeyIsSegment(k);
    SyncReachesUnit(st, k);
  }
}
