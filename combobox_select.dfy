/** The searchable select (src/components/combobox-select.tsx): the item
    list with the optional "all" entry, the selected item, the value
    reported on a change and the search filter. */
module ComboboxSelect {
  import opened Common

  datatype ComboboxOption = ComboboxOption(text: string, value: string)

  /** The "all" entry: the placeholder as its text and "" as its value. */
  function AllOption(placeholder: string): ComboboxOption {
    ComboboxOption(placeholder, "")
  }

  /** `items`: the external items, after the "all" entry when asked for. */
  function Items(external: seq<ComboboxOption>, includeAllOption: bool, placeholder: string): (r: seq<ComboboxOption>)
    ensures includeAllOption ==> |r| == |external| + 1 && r[0] == AllOption(placeholder) && r[1..] == external
    ensures !includeAllOption ==> r == external
  {
    if includeAllOption then [AllOption(placeholder)] + external else external
  }

  /** `selectedItem`: the first item whose value equals the value. */
  function SelectedItem(items: seq<ComboboxOption>, value: string): (r: Option<ComboboxOption>)
    ensures r.None? <==> forall i :: 0 <= i < |items| ==> items[i].value != value
    ensures r.Some? ==> r.value.value == value && r.value in items
    ensures r.Some? ==> exists i :: 0 <= i < |items| && items[i] == r.value && forall j :: 0 <= j < i ==> items[j].value != value
  {
    Find(items, (item: ComboboxOption) => item.value == value)
  }

  /** With the "all" entry present, the value "" selects it, whatever the
      external items hold. */
  lemma EmptyValueSelectsAll(external: seq<ComboboxOption>, placeholder: string)
    ensures SelectedItem(Items(external, true, placeholder), "") == Some(AllOption(placeholder))
  {
  }

  /** Without "all", a value no item carries selects nothing. */
  lemma UnknownValueSelectsNothing(external: seq<ComboboxOption>, value: string)
    requires forall o :: o in external ==> o.value != value
    ensures SelectedItem(Items(external, false, ""), value).None?
  {
    forall i | 0 <= i < |external| ensures external[i].value != value {
      assert external[i] in external;
    }
  }

  /** What the list reports on a change: nothing, one item, or an array. */
  datatype Selection = Cleared | Single(item: ComboboxOption) | Several(items: seq<ComboboxOption>)

  /** `handleValueChange`: null gives "", an array its first element's
      value or "" when empty, a single item its value. */
  function ChangedValue(selected: Selection): (r: string)
    ensures selected.Cleared? ==> r == ""
    ensures selected.Single? ==> r == selected.item.value
    ensures selected.Several? ==> r == if selected.items == [] then "" else selected.items[0].value
  {
    match selected
    case Cleared => ""
    case Single(item) => item.value
    case Several(items) => if items == [] then "" else items[0].value
  }

  /** Choosing an item reports a value that selects an item with that
      value; choosing "all" reports "" and so selects "all" again. */
  lemma ChosenItemIsSelected(items: seq<ComboboxOption>, k: nat)
    requires k < |items|
    ensures SelectedItem(items, ChangedValue(Single(items[k]))).Some?
    ensures SelectedItem(items, ChangedValue(Single(items[k]))).value.value == items[k].value
  {
  }

  /** `turkishFilter`: an item stays when its normalized label contains the
      normalized query. */
  predicate TurkishFilter(item: ComboboxOption, query: string, norm: string -> string) {
    Includes(norm(item.text), norm(query))
  }

  /** The items the list shows for a query, in order. */
  function Shown(items: seq<ComboboxOption>, query: string, norm: string -> string): (r: seq<ComboboxOption>)
    ensures forall o :: o in r <==> o in items && TurkishFilter(o, query, norm)
    ensures |r| <= |items|
  {
    if items == [] then []
    else Shown(items[..|items| - 1], query, norm) + (if TurkishFilter(items[|items| - 1], query, norm) then [items[|items| - 1]] else [])
  }
}
