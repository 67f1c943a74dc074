/**
 * Row-selection helpers of the dropdown (MaterialDropdown/Dropdown.cs): the
 * call a selection change makes on the table view, and the lookup of an item
 * in the data source.
 */
module Selection {
  import opened Wrappers

  /**
   * A data-source item: any object. Nothing is known of it but equality,
   * which stands for its `Equals`; two items showing the same text may
   * still be different items.
   */
  type Item(==)

  /** The call made on the table view: none, `SelectRow(row)` or `DeselectRow(row)`. */
  datatype TableCall = NoCall | SelectRow(row: int) | DeselectRow(row: int)

  /**
   * The table call of `DeselectRowAt` as written: its early return
   * `index == null || index.Value >= 0` skips every real row, so the table
   * only ever hears about negative indexes.
   */
  function DeselectCallAsWritten(index: Option<int>): (call: TableCall)
    ensures call != NoCall <==> index.Some? && index.value < 0
    ensures call != NoCall ==> call == DeselectRow(index.value)
  {
    if index.None? || index.value >= 0 then NoCall else DeselectRow(index.value)
  }

  /** For every real row the two guards disagree: as written nothing reaches the table, corrected the row is deselected. */
  lemma RowDeselectDiscrepancy(row: int)
    requires row >= 0
    ensures DeselectCallAsWritten(Some(row)) == NoCall
    ensures DeselectCall(Some(row)) == DeselectRow(row)
    ensures DeselectCallAsWritten(Some(row)) != DeselectCall(Some(row))
  {
  }

  /** Deselecting row 0 after selecting it: as written the table keeps it highlighted; corrected, it is cleared. */
  lemma DeselectRowZeroDiscrepancy()
    ensures DeselectCallAsWritten(Some(0)) == NoCall
    ensures DeselectCall(Some(0)) == DeselectRow(0)
  {
  }

  /** The table call of `DeselectRowAt` with the guard the code evidently means: skip no index or a negative one. */
  function DeselectCall(index: Option<int>): (call: TableCall)
    ensures call != NoCall <==> index.Some? && index.value >= 0
    ensures call != NoCall ==> call == DeselectRow(index.value)
  {
    if index.None? || index.value < 0 then NoCall else DeselectRow(index.value)
  }

  /** `Array.IndexOf`: the first position of `item`, or -1 when it is absent. */
  function IndexOf(items: seq<Item>, item: Item): (r: int)
    ensures -1 <= r < |items|
    ensures r == -1 <==> item !in items
    ensures r >= 0 ==> items[r] == item && item !in items[..r]
  {
    if |items| == 0 then -1
    else if items[0] == item then 0
    else
      var k := IndexOf(items[1..], item);
      assert k >= 0 ==> items[..k + 1] == [items[0]] + items[1..][..k];
      if k == -1 then -1 else k + 1
  }

  /** Items are told apart by equality, not by what their rows show: the second of two distinct items is row 1. */
  lemma IndexOfTellsDistinctItemsApart(first: Item, second: Item)
    requires first != second
    ensures IndexOf([first, second], second) == 1
    ensures IndexOf([first, second], first) == 0
  {
  }
}
