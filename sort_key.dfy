// The sort-key codec shared by the three sort pickers
// (src/app/ImpulseBuyStop/listSort.tsx, listSortAndroid.tsx, listSortIos.tsx):
// a (SortType, OrderByDirection) pair is written as "<type>:<order>" and read
// back with JavaScript's `split(":")`; the four keys and their labels form
// the SORT_OPTIONS table.

module SortKey {
  import opened Types

  const Separator: char := ':'

  /** JavaScript `s.split(sep)` for a one-character separator: the pieces
      between separators, always at least one. */
  function Split(s: string, sep: char): (parts: seq<string>)
    ensures |parts| >= 1
    ensures forall k :: 0 <= k < |parts| ==> sep !in parts[k]
    ensures Join(parts, sep) == s
    decreases |s|
  {
    if |s| == 0 then [""]
    else
      var rest := Split(s[1..], sep);
      if s[0] == sep then
        assert Join([""] + rest, sep) == [sep] + Join(rest, sep);
        [""] + rest
      else
        var parts := [[s[0]] + rest[0]] + rest[1..];
        assert parts[1..] == rest[1..];
        assert Join(parts, sep) == [s[0]] + Join(rest, sep);
        parts
  }

  /** The pieces put back together with the separator between them. */
  function Join(parts: seq<string>, sep: char): string
    requires |parts| >= 1
  {
    if |parts| == 1 then parts[0] else parts[0] + [sep] + Join(parts[1..], sep)
  }

  lemma {:induction false} SplitNoSeparator(a: string, sep: char)
    requires sep !in a
    ensures Split(a, sep) == [a]
    decreases |a|
  {
    if |a| > 0 {
      SplitNoSeparator(a[1..], sep);
      assert [a[0]] + a[1..] == a;
    }
  }

  lemma {:induction false} SplitAtSeparator(a: string, b: string, sep: char)
    requires sep !in a
    ensures Split(a + [sep] + b, sep) == [a] + Split(b, sep)
    decreases |a|
  {
    var s := a + [sep] + b;
    if |a| == 0 {
      assert s[1..] == b;
    } else {
      assert s[1..] == a[1..] + [sep] + b;
      SplitAtSeparator(a[1..], b, sep);
      assert [a[0]] + a[1..] == a;
    }
  }

  /** Splitting undoes joining pieces that hold no separator. */
  lemma {:induction false} SplitJoin(parts: seq<string>, sep: char)
    requires |parts| >= 1
    requires forall k :: 0 <= k < |parts| ==> sep !in parts[k]
    ensures Split(Join(parts, sep), sep) == parts
  {
    if |parts| == 1 {
      SplitNoSeparator(parts[0], sep);
    } else {
      SplitJoin(parts[1..], sep);
      SplitAtSeparator(parts[0], Join(parts[1..], sep), sep);
      assert [parts[0]] + parts[1..] == parts;
    }
  }

  /** `${sortType}:${sortOrder}` */
  function FormatKey(t: SortType, o: OrderByDirection): string
  {
    SortTypeName(t) + [Separator] + OrderName(o)
  }

  /** `key.split(":")` read as `[SortType, OrderByDirection]`: the first two
      pieces, when they are names of the two union types. */
  function ParseKey(key: string): Option<(SortType, OrderByDirection)>
  {
    var parts := Split(key, Separator);
    if |parts| < 2 then None
    else
      match (SortTypeOf(parts[0]), OrderOf(parts[1]))
      case (Some(t), Some(o)) => Some((t, o))
      case _ => None
  }

  /** Splitting a formatted key gives back the pair that produced it. */
  lemma ParseFormat(t: SortType, o: OrderByDirection)
    ensures Split(FormatKey(t, o), Separator) == [SortTypeName(t), OrderName(o)]
    ensures ParseKey(FormatKey(t, o)) == Some((t, o))
  {
    SplitAtSeparator(SortTypeName(t), OrderName(o), Separator);
    SplitNoSeparator(OrderName(o), Separator);
  }

  /** Distinct pairs have distinct keys. */
  lemma FormatInjective(t1: SortType, o1: OrderByDirection, t2: SortType, o2: OrderByDirection)
    ensures FormatKey(t1, o1) == FormatKey(t2, o2) <==> (t1, o1) == (t2, o2)
  {
    if FormatKey(t1, o1) == FormatKey(t2, o2) {
      ParseFormat(t1, o1);
      ParseFormat(t2, o2);
    }
  }

  /** Conversely, a key that parses starts with the formatted pair, followed
      by nothing or by a further ':'; with exactly one ':' it is the
      formatted pair itself. */
  lemma FormatParse(key: string, t: SortType, o: OrderByDirection)
    requires ParseKey(key) == Some((t, o))
    ensures FormatKey(t, o) <= key
    ensures |key| == |FormatKey(t, o)| || key[|FormatKey(t, o)|] == Separator
    ensures |Split(key, Separator)| == 2 ==> key == FormatKey(t, o)
  {
    var parts := Split(key, Separator);
    assert parts[0] == SortTypeName(t) && parts[1] == OrderName(o);
    assert key == parts[0] + [Separator] + Join(parts[1..], Separator);
    if |parts| == 2 {
      assert key == FormatKey(t, o);
    } else {
      assert Join(parts[1..], Separator) == parts[1] + [Separator] + Join(parts[2..], Separator);
      assert key == FormatKey(t, o) + [Separator] + Join(parts[2..], Separator);
    }
  }

  /** One entry of SORT_OPTIONS: a key and its picker caption. */
  datatype SortOption = SortOption(key: string, caption: string)

  const LabelNewestFirst: string := "最終更新日 新しい順"
  const LabelOldestFirst: string := "最終更新日 古い順"
  const LabelPriorityHighFirst: string := "優先度 高い順"
  const LabelPriorityLowFirst: string := "優先度 低い順"

  /** SORT_OPTIONS, in its insertion order (the order of Object.keys/values). */
  function SortOptions(): seq<SortOption>
  {
    [ SortOption("updatedAt:desc", LabelNewestFirst),
      SortOption("updatedAt:asc", LabelOldestFirst),
      SortOption("priority:asc", LabelPriorityHighFirst),
      SortOption("priority:desc", LabelPriorityLowFirst) ]
  }

  /** One `<Picker.Item label=… value=…>` of a sort picker. */
  datatype PickerItem = PickerItem(caption: string, value: string)

  /** `Object.keys(SORT_OPTIONS)` */
  function SortOptionKeys(): seq<string>
  {
    seq(|SortOptions()|, i requires 0 <= i < |SortOptions()| => SortOptions()[i].key)
  }

  /** The SortOptionKey type: one of the four keys. */
  predicate IsSortOptionKey(key: string)
  {
    key in SortOptionKeys()
  }

  /** `SORT_OPTIONS[key]` */
  function LabelOf(key: string): (caption: string)
    requires IsSortOptionKey(key)
    ensures exists i :: 0 <= i < |SortOptions()| && SortOptions()[i] == SortOption(key, caption)
  {
    if key == "updatedAt:desc" then LabelNewestFirst
    else if key == "updatedAt:asc" then LabelOldestFirst
    else if key == "priority:asc" then LabelPriorityHighFirst
    else LabelPriorityLowFirst
  }

  /** Every formatted pair is one of the four keys. */
  lemma FormattedKeyIsSortOptionKey(t: SortType, o: OrderByDirection)
    ensures IsSortOptionKey(FormatKey(t, o))
  {
    assert SortOptionKeys()[KeyIndex(t, o)] == FormatKey(t, o);
  }

  /** Each of the four keys parses, and re-formats to itself. */
  lemma SortOptionKeyParses(key: string)
    requires IsSortOptionKey(key)
    ensures ParseKey(key).Some? && FormatKey(ParseKey(key).value.0, ParseKey(key).value.1) == key
  {
    var t, o :| FormatKey(t, o) == key by {
      if key == "updatedAt:desc" { assert FormatKey(UpdatedAt, Desc) == key; }
      else if key == "updatedAt:asc" { assert FormatKey(UpdatedAt, Asc) == key; }
      else if key == "priority:asc" { assert FormatKey(Priority, Asc) == key; }
      else { assert FormatKey(Priority, Desc) == key; }
    }
    ParseFormat(t, o);
  }

  /** SORT_OPTIONS has four distinct keys with four distinct labels, its keys
      are exactly the formatted pairs of every SortType and every
      OrderByDirection, and each key parses back to its pair. */
  lemma SortOptionsTable()
    ensures |SortOptions()| == 4
    ensures forall i, j :: 0 <= i < j < 4 ==> SortOptions()[i].key != SortOptions()[j].key
    ensures forall i, j :: 0 <= i < j < 4 ==> SortOptions()[i].caption != SortOptions()[j].caption
    ensures forall t, o :: IsSortOptionKey(FormatKey(t, o))
    ensures forall key :: IsSortOptionKey(key) ==>
              ParseKey(key).Some? && FormatKey(ParseKey(key).value.0, ParseKey(key).value.1) == key
  {
    forall t, o ensures IsSortOptionKey(FormatKey(t, o)) {
      FormattedKeyIsSortOptionKey(t, o);
    }
    forall key | IsSortOptionKey(key)
      ensures ParseKey(key).Some? && FormatKey(ParseKey(key).value.0, ParseKey(key).value.1) == key
    {
      SortOptionKeyParses(key);
    }
  }

  /** The position of a pair's key in SORT_OPTIONS. */
  function KeyIndex(t: SortType, o: OrderByDirection): (i: nat)
    ensures i < |SortOptions()| && SortOptions()[i].key == FormatKey(t, o)
  {
    match (t, o)
    case (UpdatedAt, Desc) => 0
    case (UpdatedAt, Asc) => 1
    case (Priority, Asc) => 2
    case (Priority, Desc) => 3
  }

  /** Ascending priority is labelled "high first", descending "low first";
      the update-time keys read newest first and oldest first. */
  lemma PriorityLabels()
    ensures IsSortOptionKey(FormatKey(Priority, Asc)) && LabelOf(FormatKey(Priority, Asc)) == LabelPriorityHighFirst
    ensures IsSortOptionKey(FormatKey(Priority, Desc)) && LabelOf(FormatKey(Priority, Desc)) == LabelPriorityLowFirst
    ensures IsSortOptionKey(FormatKey(UpdatedAt, Desc)) && LabelOf(FormatKey(UpdatedAt, Desc)) == LabelNewestFirst
    ensures IsSortOptionKey(FormatKey(UpdatedAt, Asc)) && LabelOf(FormatKey(UpdatedAt, Asc)) == LabelOldestFirst
  {
    assert SortOptionKeys()[KeyIndex(Priority, Asc)] == FormatKey(Priority, Asc) == "priority:asc";
    assert SortOptionKeys()[KeyIndex(Priority, Desc)] == FormatKey(Priority, Desc) == "priority:desc";
    assert SortOptionKeys()[KeyIndex(UpdatedAt, Desc)] == FormatKey(UpdatedAt, Desc) == "updatedAt:desc";
    assert SortOptionKeys()[KeyIndex(UpdatedAt, Asc)] == FormatKey(UpdatedAt, Asc) == "updatedAt:asc";
  }
}
