// The sort picker of src/app/ImpulseBuyStop/listSort.tsx: a picker whose
// value is a sort key, and whose change handler splits the chosen key and
// hands its two parts to the list screen's setters.

module ListSort {
  import opened Types
  import opened SortKey

  /** The four `<Picker.Item>`s, as the screen lists them. */
  function PickerItems(): seq<PickerItem>
  {
    [ PickerItem("最終更新日 新しい順", "updatedAt:desc"),
      PickerItem("最終更新日 古い順", "updatedAt:asc"),
      PickerItem("優先度 高い順", "priority:asc"),
      PickerItem("優先度 低い順", "priority:desc") ]
  }

  /** The picker offers exactly the SORT_OPTIONS entries, in the same order,
      and each value parses to a valid (SortType, OrderByDirection) pair. */
  lemma PickerItemsMatchSortOptions()
    ensures |PickerItems()| == |SortOptions()| == 4
    ensures forall i :: 0 <= i < 4 ==>
              PickerItems()[i].value == SortOptions()[i].key && PickerItems()[i].caption == SortOptions()[i].caption
    ensures forall i :: 0 <= i < 4 ==> ParseKey(PickerItems()[i].value).Some?
  {
    forall i | 0 <= i < 4 ensures ParseKey(PickerItems()[i].value).Some? {
      assert IsSortOptionKey(PickerItems()[i].value) by {
        assert SortOptionKeys()[i] == PickerItems()[i].value;
      }
      SortOptionKeyParses(PickerItems()[i].value);
    }
  }

  class ListSortPicker {
    /** The picker's selected value (the `pickerValue` state). */
    var pickerValue: string

    ghost predicate Valid()
      reads this
    {
      IsSortOptionKey(pickerValue)
    }

    /** The initial value is `itemsSortType + ':' + itemsSortOrder`. */
    constructor (itemsSortType: SortType, itemsSortOrder: OrderByDirection)
      ensures Valid()
      ensures pickerValue == FormatKey(itemsSortType, itemsSortOrder)
      ensures ParseKey(pickerValue) == Some((itemsSortType, itemsSortOrder))
    {
      pickerValue := FormatKey(itemsSortType, itemsSortOrder);
      FormattedKeyIsSortOptionKey(itemsSortType, itemsSortOrder);
      ParseFormat(itemsSortType, itemsSortOrder);
    }

    /** `handlePickerChange(itemValue)`: select the value, then pass the two
        parts of `itemValue.split(":")` to setItemsSortType and
        setItemsSortOrder (returned here in that order). */
    method HandlePickerChange(itemValue: string) returns (sortType: SortType, sortOrder: OrderByDirection)
      requires IsSortOptionKey(itemValue)
      modifies this
      ensures Valid()
      ensures pickerValue == itemValue
      ensures FormatKey(sortType, sortOrder) == itemValue
      ensures Split(itemValue, Separator) == [SortTypeName(sortType), OrderName(sortOrder)]
    {
      SortOptionKeyParses(itemValue);
      var parsed := ParseKey(itemValue);
      sortType, sortOrder := parsed.value.0, parsed.value.1;
      ParseFormat(sortType, sortOrder);
      pickerValue := itemValue;
    }
  }
}
