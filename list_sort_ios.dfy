// The iOS sort picker of src/app/ImpulseBuyStop/listSortIos.tsx: an action
// sheet whose options are a cancel entry followed by the SORT_OPTIONS labels;
// the chosen index selects a key, index 0 cancels.

module ListSortIos {
  import opened Types
  import opened SortKey

  const CancelLabel: string := "キャンセル"

  /** The `cancelButtonIndex` given to the action sheet. */
  const CancelButtonIndex: nat := 0

  /** `['キャンセル', ...Object.values(SORT_OPTIONS)]` */
  function SortLabels(): seq<string>
  {
    [CancelLabel] + seq(|SortOptions()|, i requires 0 <= i < |SortOptions()| => SortOptions()[i].caption)
  }

  /** Five options, cancel first and at the cancel index, then for each
      index i in 1..4 the label of the key that index selects. */
  lemma SortLabelsTable()
    ensures |SortLabels()| == 5
    ensures SortLabels()[CancelButtonIndex] == CancelLabel
    ensures forall j :: 0 <= j < 4 ==>
              && IsSortOptionKey(SortOptionKeys()[j])
              && SortLabels()[j + 1] == LabelOf(SortOptionKeys()[j])
              && SortLabels()[j + 1] != CancelLabel
  {
    forall j | 0 <= j < 4
      ensures IsSortOptionKey(SortOptionKeys()[j]) && SortLabels()[j + 1] == LabelOf(SortOptionKeys()[j])
      ensures SortLabels()[j + 1] != CancelLabel
    {
      assert SortLabels()[j + 1] == SortOptions()[j].caption;
      assert SortOptionKeys()[j] in SortOptionKeys();
      assert SortLabels()[j + 1][0] != CancelLabel[0];
    }
  }

  class ListSortIosPicker {
    /** The selected key (the `sortKey` state). */
    var sortKey: string

    ghost predicate Valid()
      reads this
    {
      IsSortOptionKey(sortKey)
    }

    /** The initial key is `${itemsSortType}:${itemsSortOrder}`. */
    constructor (itemsSortType: SortType, itemsSortOrder: OrderByDirection)
      ensures Valid()
      ensures sortKey == FormatKey(itemsSortType, itemsSortOrder)
      ensures ParseKey(sortKey) == Some((itemsSortType, itemsSortOrder))
    {
      sortKey := FormatKey(itemsSortType, itemsSortOrder);
      FormattedKeyIsSortOptionKey(itemsSortType, itemsSortOrder);
      ParseFormat(itemsSortType, itemsSortOrder);
    }

    /** The text on the button: `SORT_OPTIONS[sortKey]`. */
    function DisplayedLabel(): (caption: string)
      reads this
      requires Valid()
      ensures exists i :: 0 <= i < |SortOptions()| && SortOptions()[i] == SortOption(sortKey, caption)
    {
      LabelOf(sortKey)
    }

    /** `handlePickerChange(itemIndex)`: index 0 cancels and calls nothing;
        index i in 1..4 selects `Object.keys(SORT_OPTIONS)[i - 1]` and passes
        its two parts to the setters (returned in that order). The button then
        shows the label the user tapped. */
    method HandlePickerChange(itemIndex: nat) returns (setters: Option<(SortType, OrderByDirection)>)
      requires Valid()
      requires itemIndex < |SortLabels()|
      modifies this
      ensures Valid()
      ensures itemIndex == CancelButtonIndex ==> setters == None && sortKey == old(sortKey)
      ensures itemIndex != CancelButtonIndex ==>
                && sortKey == SortOptionKeys()[itemIndex - 1]
                && setters.Some?
                && FormatKey(setters.value.0, setters.value.1) == sortKey
                && DisplayedLabel() == SortLabels()[itemIndex]
    {
      if itemIndex == 0 {
        return None;
      }
      SortLabelsTable();
      var selectedKey := SortOptionKeys()[itemIndex - 1];
      SortOptionKeyParses(selectedKey);
      var parsed := ParseKey(selectedKey);
      sortKey := selectedKey;
      setters := Some(parsed.value);
    }
  }
}
