/** The optional value used wherever the source has `undefined`, `null` or an absent field. */
module Wrappers {
  datatype Option<+T> = None | Some(value: T)

  /**
   * `setSelected(selected === item ? null : item)`: tapping the selected item
   * clears the selection, tapping any other item selects it alone.
   */
  function ToggleSelection<T(==)>(selected: Option<T>, item: T): (r: Option<T>)
    ensures selected == Some(item) ==> r == None
    ensures selected != Some(item) ==> r == Some(item)
  {
    if selected == Some(item) then None else Some(item)
  }

  /** Tapping the same item twice, from no selection or from that item, comes back. */
  lemma ToggleSelectionTwice<T>(selected: Option<T>, item: T)
    requires selected == None || selected == Some(item)
    ensures ToggleSelection(ToggleSelection(selected, item), item) == selected
  {
  }

  /** Tapping the same item twice from another selection leaves nothing selected. */
  lemma ToggleSelectionTwiceFromOther<T>(selected: Option<T>, item: T)
    requires selected.Some? && selected.value != item
    ensures ToggleSelection(ToggleSelection(selected, item), item) == None
  {
  }
}
