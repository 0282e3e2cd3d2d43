/** The navigation slice of the store: the four-level selection
    (section, child, unit, sub-tab), its cascading-reset setters, and its
    mirror in browser storage. */
module NavigationSlice {

  /** One navigation selection; the empty string means "none selected". */
  datatype NavState = NavState(section: string, child: string, unit: string, subTab: string)

  /** The storage key the whole record is written under. */
  const StorageKey: string := "navigationState"

  /** The selection with nothing stored: the map section, nothing below it. */
  const InitialState: NavState := NavState("map", "", "", "")

  /** Startup: the stored record verbatim when there is one (an unparseable
      record counts as absent), the initial selection otherwise. No reset
      rule is re-applied to what is loaded. */
  function LoadState(storage: map<string, NavState>): NavState
  {
    if StorageKey in storage then storage[StorageKey] else InitialState
  }

  lemma LoadWithNothingStored(storage: map<string, NavState>)
    requires StorageKey !in storage
    ensures LoadState(storage) == NavState("map", "", "", "")
  {
  }

  /** What the stored record holds is loaded as it is, even a selection that
      no sequence of setters produces (a unit under a non-chemistry child). */
  lemma LoadReturnsStoredVerbatim(storage: map<string, NavState>, st: NavState)
    ensures LoadState(storage[StorageKey := st]) == st
  {
  }

  /** The selection after `setActiveSection(s)`. */
  function WithSection(st: NavState, s: string): (r: NavState)
    ensures r.section == s
    ensures s != "inputs" ==> r.child == "" && r.unit == "" && r.subTab == ""
    ensures s == "inputs" ==> r.child == st.child
    ensures s == "inputs" && st.child == "chemistry" ==> r.unit == st.unit && r.subTab == st.subTab
    ensures s == "inputs" && st.child != "chemistry" ==> r.unit == "" && r.subTab == ""
  {
    if s != "inputs" then NavState(s, "", "", "")
    else if st.child == "chemistry" then st.(section := s)
    else NavState(s, st.child, "", "")
  }

  /** The selection after `setActiveChild(c)`. */
  function WithChild(st: NavState, c: string): (r: NavState)
    ensures r.section == st.section && r.child == c
    ensures c == "chemistry" ==> r.unit == st.unit && r.subTab == st.subTab
    ensures c != "chemistry" ==> r.unit == "" && r.subTab == ""
  {
    if c == "chemistry" then st.(child := c) else NavState(st.section, c, "", "")
  }

  /** The selection after `setActiveUnit(u)`: the parents are not checked. */
  function WithUnit(st: NavState, u: string): (r: NavState)
    ensures r.section == st.section && r.child == st.child
    ensures r.unit == u && r.subTab == ""
  {
    NavState(st.section, st.child, u, "")
  }

  /** The selection after `setActiveSubTab(t)`. */
  function WithSubTab(st: NavState, t: string): (r: NavState)
    ensures r.section == st.section && r.child == st.child && r.unit == st.unit
    ensures r.subTab == t
  {
    st.(subTab := t)
  }

  /** Each setter applied twice with the same payload acts as once. */
  lemma SettersIdempotent(st: NavState, v: string)
    ensures WithSection(WithSection(st, v), v) == WithSection(st, v)
    ensures WithChild(WithChild(st, v), v) == WithChild(st, v)
    ensures WithUnit(WithUnit(st, v), v) == WithUnit(st, v)
    ensures WithSubTab(WithSubTab(st, v), v) == WithSubTab(st, v)
  {
  }

  /** A section other than inputs clears every lower level, whatever was
      selected before. */
  lemma LeavingInputsClearsBelow(st: NavState, s: string)
    requires s != "inputs"
    ensures WithSection(st, s) == NavState(s, "", "", "")
  {
  }

  /** The walk from the initial selection down to a unit and back to the map. */
  lemma WalkDownAndBack()
    ensures WithSection(InitialState, "inputs") == NavState("inputs", "", "", "")
    ensures WithChild(NavState("inputs", "", "", ""), "chemistry") == NavState("inputs", "chemistry", "", "")
    ensures WithUnit(NavState("inputs", "chemistry", "", ""), "reactor") == NavState("inputs", "chemistry", "reactor", "")
    ensures WithSection(NavState("inputs", "chemistry", "reactor", ""), "map") == InitialState
    ensures WithChild(NavState("inputs", "chemistry", "reactor", "pH-control"), "general") == NavState("inputs", "general", "", "")
  {
  }

  /** The navigation slice: the four fields of the selection, updated in
      place by the reducers, and the storage every reducer writes to. */
  class NavigationStore {
    var activeSection: string
    var activeChild: string
    var activeUnit: string
    var activeSubTab: string
    /** Browser storage, keyed as the source keys it; JSON is the identity. */
    var storage: map<string, NavState>

    function State(): NavState
      reads this
    {
      NavState(activeSection, activeChild, activeUnit, activeSubTab)
    }

    /** The stored copy is the current selection. */
    predicate Persisted()
      reads this
    {
      LoadState(storage) == State()
    }

    /** Creating the slice loads its initial state from storage. */
    constructor (storage: map<string, NavState>)
      ensures State() == LoadState(storage)
      ensures this.storage == storage
    {
      var st := LoadState(storage);
      activeSection, activeChild, activeUnit, activeSubTab := st.section, st.child, st.unit, st.subTab;
      this.storage := storage;
    }

    /** Sets the section, clears the child unless it is inputs, clears unit
        and sub-tab unless the (updated) child is chemistry under inputs,
        then writes the record. */
    method SetActiveSection(s: string)
      modifies this
      ensures State() == WithSection(old(State()), s)
      ensures storage == old(storage)[StorageKey := State()]
      ensures Persisted()
    {
      activeSection := s;
      if s != "inputs" {
        activeChild := "";
      }
      if s != "inputs" || activeChild != "chemistry" {
        activeUnit := "";
        activeSubTab := "";
      }
      storage := storage[StorageKey := State()];
    }

    /** Sets the child; unit and sub-tab are cleared unless it is chemistry. */
    method SetActiveChild(c: string)
      modifies this
      ensures State() == WithChild(old(State()), c)
      ensures storage == old(storage)[StorageKey := State()]
      ensures Persisted()
    {
      activeChild := c;
      if c != "chemistry" {
        activeUnit := "";
        activeSubTab := "";
      }
      storage := storage[StorageKey := State()];
    }

    /** Sets the unit and clears the sub-tab. */
    method SetActiveUnit(u: string)
      modifies this
      ensures State() == WithUnit(old(State()), u)
      ensures storage == old(storage)[StorageKey := State()]
      ensures Persisted()
    {
      activeUnit := u;
      activeSubTab := "";
      storage := storage[StorageKey := State()];
    }

    /** Sets the sub-tab only. */
    method SetActiveSubTab(t: string)
      modifies this
      ensures State() == WithSubTab(old(State()), t)
      ensures storage == old(storage)[StorageKey := State()]
      ensures Persisted()
    {
      activeSubTab := t;
      storage := storage[StorageKey := State()];
    }
  }
}
