// The priority catalog helpers of src/utils/priorityUtils.ts: the projection
// and filter applied to the fetched `priorityType` documents, the fetch handler
// around it, and the lookup of a display name by priority code.

module PriorityUtils {
  import opened Types
  import opened Firebase

  const FetchFailedTitle: string := "優先度の取得に失敗しました"

  /** `!disabled`: an absent flag counts as enabled. */
  predicate IsEnabled(d: PriorityDoc)
  {
    d.disabled != Some(true)
  }

  /** The `map` step: `!disabled ? { id, name } : null`. */
  function Project(d: PriorityDoc): Option<PriorityType>
  {
    if d.disabled != Some(true) then Some(PriorityType(d.id, d.name)) else None
  }

  /** The `filter` step: drop the nulls, keep the order. */
  function DropNulls(xs: seq<Option<PriorityType>>): seq<PriorityType>
  {
    if xs == [] then []
    else (if xs[0].Some? then [xs[0].value] else []) + DropNulls(xs[1..])
  }

  /** The catalog the fetch hands to its setter: the `map` then the `filter`. */
  function EnabledPriorityTypes(docs: seq<PriorityDoc>): seq<PriorityType>
  {
    DropNulls(seq(|docs|, i requires 0 <= i < |docs| => Project(docs[i])))
  }

  /** Reference definition: the enabled documents, in order, as `{ id, name }`. */
  function EnabledOnly(docs: seq<PriorityDoc>): seq<PriorityType>
  {
    if docs == [] then []
    else (if IsEnabled(docs[0]) then [PriorityType(docs[0].id, docs[0].name)] else [])
         + EnabledOnly(docs[1..])
  }

  /** The map/filter pipeline is exactly the enabled-only filter. */
  lemma {:induction false} PipelineIsEnabledOnly(docs: seq<PriorityDoc>)
    ensures EnabledPriorityTypes(docs) == EnabledOnly(docs)
  {
    if docs != [] {
      var mapped := seq(|docs|, i requires 0 <= i < |docs| => Project(docs[i]));
      var rest := seq(|docs[1..]|, i requires 0 <= i < |docs[1..]| => Project(docs[1..][i]));
      assert mapped[1..] == rest;
      PipelineIsEnabledOnly(docs[1..]);
    }
  }

  /** Filtering distributes over concatenation, so input order is kept. */
  lemma {:induction false} EnabledOnlyAppend(a: seq<PriorityDoc>, b: seq<PriorityDoc>)
    ensures EnabledOnly(a + b) == EnabledOnly(a) + EnabledOnly(b)
  {
    if a != [] {
      assert (a + b)[1..] == a[1..] + b;
      EnabledOnlyAppend(a[1..], b);
    } else {
      assert a + b == b;
    }
  }

  /** An entry is in the catalog iff some enabled document projects to it. */
  lemma {:induction false} EnabledMembership(docs: seq<PriorityDoc>, t: PriorityType)
    ensures t in EnabledPriorityTypes(docs) <==>
            exists i :: 0 <= i < |docs| && IsEnabled(docs[i]) && t == PriorityType(docs[i].id, docs[i].name)
  {
    PipelineIsEnabledOnly(docs);
    EnabledOnlyMembership(docs, t);
  }

  lemma {:induction false} EnabledOnlyMembership(docs: seq<PriorityDoc>, t: PriorityType)
    ensures t in EnabledOnly(docs) <==>
            exists i :: 0 <= i < |docs| && IsEnabled(docs[i]) && t == PriorityType(docs[i].id, docs[i].name)
  {
    if docs != [] {
      EnabledOnlyMembership(docs[1..], t);
      if t in EnabledOnly(docs[1..]) {
        var i :| 0 <= i < |docs[1..]| && IsEnabled(docs[1..][i]) && t == PriorityType(docs[1..][i].id, docs[1..][i].name);
        assert docs[i + 1] == docs[1..][i];
      }
      if exists i :: 0 <= i < |docs| && IsEnabled(docs[i]) && t == PriorityType(docs[i].id, docs[i].name) {
        var i :| 0 <= i < |docs| && IsEnabled(docs[i]) && t == PriorityType(docs[i].id, docs[i].name);
        if i > 0 {
          assert docs[1..][i - 1] == docs[i];
        }
      }
    }
  }

  /** The catalog is never longer than the input, and it is as long exactly
      when no document is disabled. */
  lemma {:induction false} EnabledLength(docs: seq<PriorityDoc>)
    ensures |EnabledPriorityTypes(docs)| <= |docs|
    ensures |EnabledPriorityTypes(docs)| == |docs| <==> forall i :: 0 <= i < |docs| ==> IsEnabled(docs[i])
  {
    PipelineIsEnabledOnly(docs);
    EnabledOnlyLength(docs);
  }

  lemma {:induction false} EnabledOnlyLength(docs: seq<PriorityDoc>)
    ensures |EnabledOnly(docs)| <= |docs|
    ensures |EnabledOnly(docs)| == |docs| <==> forall i :: 0 <= i < |docs| ==> IsEnabled(docs[i])
  {
    if docs != [] {
      EnabledOnlyLength(docs[1..]);
      if forall i :: 0 <= i < |docs[1..]| ==> IsEnabled(docs[1..][i]) {
        assert forall i :: 1 <= i < |docs| ==> IsEnabled(docs[i]) by {
          forall i | 1 <= i < |docs| ensures IsEnabled(docs[i]) {
            assert docs[i] == docs[1..][i - 1];
          }
        }
      } else {
        var i :| 0 <= i < |docs[1..]| && !IsEnabled(docs[1..][i]);
        assert !IsEnabled(docs[i + 1]);
      }
    }
  }

  /** A catalog entry read back as a document with no `disabled` flag. */
  function AsDoc(t: PriorityType): PriorityDoc
  {
    PriorityDoc(t.id, t.name, None)
  }

  /** Filtering the catalog again changes nothing. */
  lemma {:induction false} EnabledIdempotent(docs: seq<PriorityDoc>)
    ensures var types := EnabledPriorityTypes(docs);
            EnabledPriorityTypes(seq(|types|, i requires 0 <= i < |types| => AsDoc(types[i]))) == types
  {
    var types := EnabledPriorityTypes(docs);
    var again := seq(|types|, i requires 0 <= i < |types| => AsDoc(types[i]));
    PipelineIsEnabledOnly(again);
    EnabledOnlyOfAsDocs(types);
  }

  lemma {:induction false} EnabledOnlyOfAsDocs(types: seq<PriorityType>)
    ensures EnabledOnly(seq(|types|, i requires 0 <= i < |types| => AsDoc(types[i]))) == types
  {
    if types != [] {
      var docs := seq(|types|, i requires 0 <= i < |types| => AsDoc(types[i]));
      var rest := seq(|types[1..]|, i requires 0 <= i < |types[1..]| => AsDoc(types[1..][i]));
      assert docs[1..] == rest;
      EnabledOnlyOfAsDocs(types[1..]);
    }
  }

  /** `getPriorityType(setPriorityType)`: with a signed-in user, query the
      catalog and hand the filtered entries to the setter; a failed read
      alerts with the error's message and never calls the setter. */
  method GetPriorityType(user: Option<CurrentUser>, fetched: Fetch<seq<PriorityDoc>>) returns (log: seq<Effect>)
    ensures user.None? ==> log == []
    ensures user.Some? && fetched.Fetched? ==>
              log == [QueryPriorityTypes, SetPriorityTypes(EnabledOnly(fetched.value))]
    ensures user.Some? && fetched.FetchFailed? ==>
              log == [QueryPriorityTypes, Alert(FetchFailedTitle, ErrorMessage(fetched.error))]
    ensures forall k :: 0 <= k < |log| && log[k].SetPriorityTypes? ==> user.Some? && fetched.Fetched?
  {
    log := [];
    if user.None? {
      return;
    }
    log := log + [QueryPriorityTypes];
    match fetched
    case Fetched(docs) =>
      var types := EnabledPriorityTypes(docs);
      PipelineIsEnabledOnly(docs);
      log := log + [SetPriorityTypes(types)];
    case FetchFailed(error) =>
      log := log + [Alert(FetchFailedTitle, ErrorMessage(error))];
  }

  /** `priorityTypes.find(type => type.id === id)`: the first entry with that id. */
  function FindById(types: seq<PriorityType>, id: int): (r: Option<PriorityType>)
    ensures r.None? <==> forall i :: 0 <= i < |types| ==> types[i].id != id
    ensures r.Some? ==> exists i :: 0 <= i < |types| && types[i] == r.value && types[i].id == id &&
                                    forall j :: 0 <= j < i ==> types[j].id != id
  {
    if types == [] then None
    else if types[0].id == id then Some(types[0])
    else
      var r := FindById(types[1..], id);
      assert forall i :: 1 <= i < |types| ==> types[i] == types[1..][i - 1];
      r
  }

  /** `getPriorityName(priorityTypes, id)`: the name of the first entry whose
      id is the code, or '' when there is none (and for an empty catalog). */
  function GetPriorityName(types: seq<PriorityType>, id: int): (r: string)
    ensures |types| == 0 ==> r == ""
    ensures (forall i :: 0 <= i < |types| ==> types[i].id != id) ==> r == ""
    ensures forall i :: 0 <= i < |types| && types[i].id == id && (forall j :: 0 <= j < i ==> types[j].id != id)
                        ==> r == types[i].name
    ensures r == "" || exists i :: 0 <= i < |types| && types[i].id == id && r == types[i].name
  {
    if |types| == 0 then ""
    else
      match FindById(types, id)
      case Some(t) => t.name
      case None => ""
  }
}
