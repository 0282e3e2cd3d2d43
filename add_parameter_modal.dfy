/** The dialog that adds a parameter to a group: which elements it offers,
    how the new parameter is named and defaulted, and when it loads the
    element list. */
module AddParameterModal {
  import opened Wrappers
  import opened Strings
  import opened ParametersSlice

  /** `available.filter(e => !selected.includes(e.value))`. */
  function FilteredElements(available: seq<Element>, selected: seq<string>): (r: seq<Element>)
    ensures forall e :: e in r <==> e in available && e.value !in selected
    ensures |r| <= |available|
  {
    if available == [] then []
    else (if available[0].value in selected then [] else [available[0]]) + FilteredElements(available[1..], selected)
  }

  /** Filtering keeps the original order: it filters each part of a list
      on its own. */
  lemma {:induction false} FilteredElementsConcat(a: seq<Element>, b: seq<Element>, selected: seq<string>)
    ensures FilteredElements(a + b, selected) == FilteredElements(a, selected) + FilteredElements(b, selected)
  {
    if a == [] {
      assert a + b == b;
    } else {
      assert (a + b)[0] == a[0];
      assert (a + b)[1..] == a[1..] + b;
      FilteredElementsConcat(a[1..], b, selected);
    }
  }

  /** With nothing added yet, every element is offered. */
  lemma {:induction false} NothingSelectedOffersAll(available: seq<Element>)
    ensures FilteredElements(available, []) == available
  {
    if available != [] {
      NothingSelectedOffersAll(available[1..]);
    }
  }

  /** The index of the first element with value `v`, or the length. */
  function FirstElementIndex(available: seq<Element>, v: string): (i: nat)
    ensures i <= |available|
    ensures i < |available| ==> available[i].value == v
    ensures forall j :: 0 <= j < i ==> available[j].value != v
  {
    if available == [] then 0
    else if available[0].value == v then 0
    else 1 + FirstElementIndex(available[1..], v)
  }

  /** The new parameter's name: the label of the first element with the
      chosen value, or the value itself when there is none. */
  function ParameterName(available: seq<Element>, element: string): string
  {
    var i := FirstElementIndex(available, element);
    if i < |available| then available[i].labelText else element
  }

  lemma ParameterNameOfListed(available: seq<Element>, element: string, i: nat)
    requires i < |available| && available[i].value == element
    requires forall j :: 0 <= j < i ==> available[j].value != element
    ensures ParameterName(available, element) == available[i].labelText
  {
  }

  lemma ParameterNameOfUnlisted(available: seq<Element>, element: string)
    requires forall e :: e in available ==> e.value != element
    ensures ParameterName(available, element) == element
  {
  }

  /** What the form holds when OK is pressed; any field may be unset. */
  datatype FormValues = FormValues(element: Option<string>, value: Option<real>, unit: Option<string>)

  /** The form's rules: an element is required, and a value, when given,
      may not be negative. */
  predicate Valid(values: FormValues)
  {
    values.element.Some? && values.element.value != ""
    && (values.value.None? || values.value.value >= 0.0)
  }

  /** The value sent: the entered value, or 0 when unset. */
  function ValueOrZero(values: FormValues): (v: real)
    ensures values.value.Some? ==> v == values.value.value
    ensures values.value.None? ==> v == 0.0
  {
    values.value.GetOr(0.0)
  }

  /** Elements are fetched only while the dialog is open and the store has
      none. */
  predicate ShouldLoadElements(visible: bool, available: seq<Element>)
  {
    visible && |available| == 0
  }

  /** One open dialog: the element values added through it so far. */
  class AddParameterDialog {
    var selectedElements: seq<string>
    const store: ParametersStore

    constructor (store: ParametersStore)
      ensures selectedElements == [] && this.store == store
    {
      selectedElements := [];
      this.store := store;
    }

    /** The elements offered in the dropdown. */
    function Offered(): seq<Element>
      reads this, store
    {
      FilteredElements(store.availableElements, selectedElements)
    }

    /** OK: when the form is valid, adds the parameter, remembers the
        element so it is no longer offered, and closes; otherwise nothing
        happens and the dialog stays open. */
    method HandleOk(groupId: string, values: FormValues, stamp: string) returns (closed: bool)
      modifies this, store
      ensures closed <==> Valid(values)
      ensures !Valid(values) ==>
        selectedElements == old(selectedElements) && store.groups == old(store.groups) && store.storage == old(store.storage)
      ensures Valid(values) ==>
        var element := values.element.value;
        && store.groups == Appended(old(store.groups), groupId,
             NewParameter(groupId, ParameterName(old(store.availableElements), element), element,
                          ValueOrZero(values), Some(StringOr(values.unit, "")), None, None, stamp))
        && selectedElements == old(selectedElements) + [element]
        && (forall e :: e in Offered() ==> e.value != element)
        && store.storage == if FirstGroupIndex(old(store.groups), groupId) < |old(store.groups)|
             then old(store.storage)[StorageKey := Snapshot(store.State())] else old(store.storage)
      ensures store.availableElements == old(store.availableElements)
      ensures store.loading == old(store.loading) && store.error == old(store.error)
    {
      if !Valid(values) {
        return false;
      }
      var element := values.element.value;
      var name := ParameterName(store.availableElements, element);
      store.AddParameter(groupId, name, element, ValueOrZero(values), Some(StringOr(values.unit, "")), None, None, stamp);
      selectedElements := selectedElements + [element];
      closed := true;
    }

    /** Cancel: closes without dispatching anything. */
    method HandleCancel() returns (closed: bool)
      ensures closed
    {
      closed := true;
    }

    /** Loads the element list: the loading flag is raised, the fetched
        list stored, and the flag lowered. The fetch never fails (it falls
        back to a built-in list), so its result is a parameter. */
    method LoadElements(fetched: seq<Element>)
      modifies store
      ensures store.availableElements == fetched && !store.loading
      ensures store.groups == old(store.groups) && store.error == old(store.error)
      ensures store.storage == old(store.storage)
      ensures |fetched| > 0 ==> !ShouldLoadElements(true, store.availableElements)
    {
      store.SetLoading(true);
      store.SetAvailableElements(fetched);
      store.SetLoading(false);
    }
  }
}
