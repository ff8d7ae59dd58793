// The Android sort picker of src/app/ImpulseBuyStop/listSortAndroid.tsx: a
// dropdown built from SORT_OPTIONS whose selected key is local state.

module ListSortAndroid {
  import opened Types
  import opened SortKey

  /** `Object.entries(SORT_OPTIONS).map(([key, value]) => <Picker.Item label={value} value={key}/>)` */
  function PickerItems(): seq<PickerItem>
  {
    seq(|SortOptions()|, i requires 0 <= i < |SortOptions()| => PickerItem(SortOptions()[i].caption, SortOptions()[i].key))
  }

  /** The dropdown lists one item per SORT_OPTIONS entry, valued by its key
      and captioned by that key's label. */
  lemma PickerItemsAreEntries()
    ensures |PickerItems()| == 4
    ensures forall i :: 0 <= i < |PickerItems()| ==>
              IsSortOptionKey(PickerItems()[i].value) && PickerItems()[i].caption == LabelOf(PickerItems()[i].value)
    ensures forall key :: IsSortOptionKey(key) ==> exists i :: 0 <= i < |PickerItems()| && PickerItems()[i].value == key
  {
    forall i | 0 <= i < |PickerItems()|
      ensures IsSortOptionKey(PickerItems()[i].value) && PickerItems()[i].caption == LabelOf(PickerItems()[i].value)
    {
      assert SortOptionKeys()[i] == PickerItems()[i].value;
    }
    forall key | IsSortOptionKey(key)
      ensures exists i :: 0 <= i < |PickerItems()| && PickerItems()[i].value == key
    {
      var i :| 0 <= i < |SortOptionKeys()| && SortOptionKeys()[i] == key;
      assert PickerItems()[i].value == key;
    }
  }

  class ListSortAndroidPicker {
    /** The selected key (the `sortKey` state). */
    var sortKey: string

    ghost predicate Valid()
      reads this
    {
      IsSortOptionKey(sortKey)
    }

    /** The initial key is `${itemsSortType}:${itemsSortOrder}`. */
    constructor (itemsSortType: SortType, itemsSortOrder: OrderByDirection)
      ensures Valid()
      ensures sortKey == FormatKey(itemsSortType, itemsSortOrder)
      ensures ParseKey(sortKey) == Some((itemsSortType, itemsSortOrder))
    {
      sortKey := FormatKey(itemsSortType, itemsSortOrder);
      FormattedKeyIsSortOptionKey(itemsSortType, itemsSortOrder);
      ParseFormat(itemsSortType, itemsSortOrder);
    }

    /** `handlePickerChange(selectedKey)`: split the key, store it, then pass
        the type and the order to the two setters (returned in that order). */
    method HandlePickerChange(selectedKey: string) returns (sortType: SortType, sortOrder: OrderByDirection)
      requires IsSortOptionKey(selectedKey)
      modifies this
      ensures Valid()
      ensures sortKey == selectedKey
      ensures FormatKey(sortType, sortOrder) == selectedKey
      ensures Split(selectedKey, Separator) == [SortTypeName(sortType), OrderName(sortOrder)]
    {
      SortOptionKeyParses(selectedKey);
      var parsed := ParseKey(selectedKey);
      sortType, sortOrder := parsed.value.0, parsed.value.1;
      ParseFormat(sortType, sortOrder);
      sortKey := selectedKey;
    }
  }
}
