// The list screen of src/app/ImpulseBuyStop/list.tsx: its reducer state, the
// loading / empty / list classification, the "add" guard, the choice of the
// collection the live query reads, the mapping of each snapshot into display
// records, and the effect that (re)opens the live query whenever the catalog
// or the sort changes.

module List {
  import opened Types
  import opened Firebase
  import opened PriorityUtils
  import opened UnsubscribeContext
  import opened SortKey
  import ListSort

  // ---------------------------------------------------------------- state

  /** ListState */
  datatype ListState = ListState(
    items: Option<seq<OutPutBuyItem>>,   // null while loading
    priorityType: seq<PriorityType>,
    sortType: SortType,
    sortOrder: OrderByDirection)

  /** ListAction; the reducer's `default` branch receives any other action. */
  datatype ListAction =
    | SetItems(items: Option<seq<OutPutBuyItem>>)
    | SetPriorityType(types: seq<PriorityType>)
    | SetSortType(sortType: SortType)
    | SetSortOrder(sortOrder: OrderByDirection)
    | UnknownListAction(tag: string)

  const InitialState: ListState := ListState(None, [], UpdatedAt, Desc)

  /** The screen starts loading, with an empty catalog, sorted by update
      time, newest first, which is the key and label the picker starts on. */
  lemma InitialStateIsLoadingNewestFirst()
    ensures BuyList(InitialState.items) == Loading
    ensures InitialState.priorityType == []
    ensures FormatKey(InitialState.sortType, InitialState.sortOrder) == "updatedAt:desc"
    ensures IsSortOptionKey(FormatKey(InitialState.sortType, InitialState.sortOrder))
    ensures LabelOf(FormatKey(InitialState.sortType, InitialState.sortOrder)) == LabelNewestFirst
  {
    PriorityLabels();
  }

  /** `listReducer(state, action)`: each action replaces its own field and
      keeps the other three; an unknown action keeps the state. */
  function ListReduce(state: ListState, action: ListAction): (r: ListState)
    ensures r.items == (if action.SetItems? then action.items else state.items)
    ensures r.priorityType == (if action.SetPriorityType? then action.types else state.priorityType)
    ensures r.sortType == (if action.SetSortType? then action.sortType else state.sortType)
    ensures r.sortOrder == (if action.SetSortOrder? then action.sortOrder else state.sortOrder)
  {
    match action
    case SetItems(items) => state.(items := items)
    case SetPriorityType(types) => state.(priorityType := types)
    case SetSortType(t) => state.(sortType := t)
    case SetSortOrder(o) => state.(sortOrder := o)
    case UnknownListAction(_) => state
  }

  /** Actions on different fields commute, and of two actions on the same
      field the later one wins. */
  lemma ListReduceCommutesAndOverwrites(s: ListState, a: ListAction, b: ListAction)
    ensures SameField(a, b) && !a.UnknownListAction? ==> ListReduce(ListReduce(s, a), b) == ListReduce(s, b)
    ensures !SameField(a, b) ==> ListReduce(ListReduce(s, a), b) == ListReduce(ListReduce(s, b), a)
  {
  }

  predicate SameField(a: ListAction, b: ListAction)
  {
    (a.SetItems? && b.SetItems?) || (a.SetPriorityType? && b.SetPriorityType?) ||
    (a.SetSortType? && b.SetSortType?) || (a.SetSortOrder? && b.SetSortOrder?) ||
    (a.UnknownListAction? && b.UnknownListAction?)
  }

  // ---------------------------------------------------------------- view

  /** What the screen body shows. */
  datatype ListView = Loading | NoData | ItemList(items: seq<OutPutBuyItem>)

  /** `buyList(items)`: a spinner while items is null, the no-data message
      for an empty list, the list otherwise. */
  function BuyList(items: Option<seq<OutPutBuyItem>>): (v: ListView)
    ensures v == Loading <==> items.None?
    ensures v == NoData <==> items == Some([])
    ensures v.ItemList? ==> items == Some(v.items) && v.items != []
  {
    if items.None? then Loading
    else if |items.value| == 0 then NoData
    else ItemList(items.value)
  }

  // ---------------------------------------------------------------- add

  const CreateRoute: string := "/ImpulseBuyStop/create"
  const TrialAddTitle: string := "お試し体験モード中はデータ追加できません。"

  /** `handlePress(anonymous)` of the add button: nothing without a user, an
      alert and nothing else in trial mode, otherwise open the editor. */
  method HandleAddPress(user: Option<CurrentUser>, anonymous: string) returns (log: seq<Effect>)
    ensures user.None? ==> log == []
    ensures user.Some? && anonymous == "true" ==> log == [Alert(TrialAddTitle, ChooseCancelMessage)]
    ensures Navigate(CreateRoute) in log <==> user.Some? && anonymous != "true"
    ensures |log| <= 1
  {
    log := [];
    if user.None? {
      return;
    }
    if anonymous == "true" {
      log := log + [Alert(TrialAddTitle, ChooseCancelMessage)];
      return;
    }
    log := log + [Navigate(CreateRoute)];
  }

  // ---------------------------------------------------------------- scope

  const SampleUid: string := "sample9999"

  /** `buyItem/${uid}/items` */
  function UserScope(uid: string): string
  {
    "buyItem/" + uid + "/items"
  }

  /** The collection the live query reads: the sample data in trial mode,
      the signed-in user's items otherwise. */
  function ScopePath(anonymous: string, uid: string): (path: string)
    ensures anonymous == "true" ==> path == UserScope(SampleUid)
    ensures anonymous != "true" ==> path == UserScope(uid)
  {
    if anonymous == "true" then "buyItem/sample9999/items" else UserScope(uid)
  }

  /** The query reads the sample data exactly in trial mode, or for a user
      whose uid is itself the sample uid. */
  lemma ScopeIsSampleIff(anonymous: string, uid: string)
    ensures ScopePath(anonymous, uid) == UserScope(SampleUid) <==> anonymous == "true" || uid == SampleUid
  {
    if anonymous != "true" && UserScope(uid) == UserScope(SampleUid) {
      var p := |"buyItem/"|;
      assert |uid| == |SampleUid|;
      assert uid == UserScope(uid)[p..p + |uid|];
      assert SampleUid == UserScope(SampleUid)[p..p + |SampleUid|];
    }
  }

  // ---------------------------------------------------------------- snapshot

  /** `getPriorityName(catalog, data.priority)`; a document without a code
      matches no entry, as `find` with an undefined id does. */
  function PriorityNameOf(catalog: seq<PriorityType>, code: Option<int>): string
  {
    match code
    case Some(c) => GetPriorityName(catalog, c)
    case None => ""
  }

  /** The display record of one document that has data. */
  function ToItem(doc: SnapshotDoc, catalog: seq<PriorityType>): (item: OutPutBuyItem)
    requires doc.data.Some?
    ensures item.id == doc.id
    ensures item.bodyText == doc.data.value.bodyText && item.updatedAt == doc.data.value.updatedAt
    ensures doc.data.value.priority.Some? ==> item.priority == GetPriorityName(catalog, doc.data.value.priority.value)
    ensures doc.data.value.priority.None? ==> item.priority == ""
  {
    OutPutBuyItem(doc.id, doc.data.value.bodyText, doc.data.value.updatedAt, PriorityNameOf(catalog, doc.data.value.priority))
  }

  /** What one document contributes: its record if it has data, else nothing. */
  function ItemsOf(doc: SnapshotDoc, catalog: seq<PriorityType>): seq<OutPutBuyItem>
  {
    if doc.data.Some? then [ToItem(doc, catalog)] else []
  }

  /** The list a snapshot produces, document by document in snapshot order. */
  function MapSnapshot(docs: seq<SnapshotDoc>, catalog: seq<PriorityType>): seq<OutPutBuyItem>
  {
    if docs == [] then []
    else MapSnapshot(docs[..|docs| - 1], catalog) + ItemsOf(docs[|docs| - 1], catalog)
  }

  /** The mapping distributes over concatenation: the list follows the
      snapshot's order. */
  lemma {:induction false} MapSnapshotAppend(a: seq<SnapshotDoc>, b: seq<SnapshotDoc>, catalog: seq<PriorityType>)
    ensures MapSnapshot(a + b, catalog) == MapSnapshot(a, catalog) + MapSnapshot(b, catalog)
    decreases |b|
  {
    if b == [] {
      assert a + b == a;
    } else {
      var last := b[|b| - 1];
      assert (a + b)[..|a + b| - 1] == a + b[..|b| - 1];
      MapSnapshotAppend(a, b[..|b| - 1], catalog);
    }
  }

  /** A record is in the list iff some document with data maps to it. */
  lemma {:induction false} MapSnapshotMembership(docs: seq<SnapshotDoc>, catalog: seq<PriorityType>, item: OutPutBuyItem)
    ensures item in MapSnapshot(docs, catalog) <==>
            exists i :: 0 <= i < |docs| && docs[i].data.Some? && item == ToItem(docs[i], catalog)
  {
    if docs != [] {
      var init := docs[..|docs| - 1];
      MapSnapshotMembership(init, catalog, item);
      assert forall i :: 0 <= i < |init| ==> init[i] == docs[i];
    }
  }

  /** The list is never longer than the snapshot, and as long exactly when
      every document has data. */
  lemma {:induction false} MapSnapshotLength(docs: seq<SnapshotDoc>, catalog: seq<PriorityType>)
    ensures |MapSnapshot(docs, catalog)| <= |docs|
    ensures |MapSnapshot(docs, catalog)| == |docs| <==> forall i :: 0 <= i < |docs| ==> docs[i].data.Some?
  {
    if docs != [] {
      var init, last := docs[..|docs| - 1], docs[|docs| - 1];
      MapSnapshotLength(init, catalog);
      assert |MapSnapshot(docs, catalog)| == |MapSnapshot(init, catalog)| + |ItemsOf(last, catalog)|;
      if forall i :: 0 <= i < |docs| ==> docs[i].data.Some? {
        assert forall i :: 0 <= i < |init| ==> init[i] == docs[i];
        assert last.data.Some?;
      } else if last.data.Some? {
        var j :| 0 <= j < |docs| && docs[j].data.None?;
        assert init[j] == docs[j];
      }
    }
  }

  /** A snapshot with no document that has data shows the no-data message. */
  lemma {:induction false} EmptySnapshotShowsNoData(docs: seq<SnapshotDoc>, catalog: seq<PriorityType>)
    requires forall i :: 0 <= i < |docs| ==> docs[i].data.None?
    ensures BuyList(Some(MapSnapshot(docs, catalog))) == NoData
  {
    if docs != [] {
      EmptySnapshotShowsNoData(docs[..|docs| - 1], catalog);
    }
  }

  /** An item written with a body, a time and a priority code reads back with
      that body and time and the name of the first catalog entry for the code. */
  lemma ReadBackCreatedItem(id: string, body: string, at: Timestamp, code: int, catalog: seq<PriorityType>, k: nat)
    requires k < |catalog| && catalog[k].id == code
    requires forall j :: 0 <= j < k ==> catalog[j].id != code
    ensures MapSnapshot([SnapshotDoc(id, Some(ItemData(Some(body), Some(at), Some(code))))], catalog)
            == [OutPutBuyItem(id, Some(body), Some(at), catalog[k].name)]
  {
    var docs := [SnapshotDoc(id, Some(ItemData(Some(body), Some(at), Some(code))))];
    assert docs[..0] == [];
  }

  /** The snapshot callback's loop: `snapshot.forEach` pushing one record per
      document that has data. */
  method BuildItems(docs: seq<SnapshotDoc>, catalog: seq<PriorityType>) returns (tempItems: seq<OutPutBuyItem>)
    ensures tempItems == MapSnapshot(docs, catalog)
  {
    tempItems := [];
    var i := 0;
    while i < |docs|
      invariant 0 <= i <= |docs|
      invariant tempItems == MapSnapshot(docs[..i], catalog)
    {
      var doc := docs[i];
      if doc.data.Some? {
        var buyItem := OutPutBuyItem(doc.id, doc.data.value.bodyText, doc.data.value.updatedAt,
                                     PriorityNameOf(catalog, doc.data.value.priority));
        tempItems := tempItems + [buyItem];
      }
      assert docs[..i + 1][..i] == docs[..i];
      i := i + 1;
    }
    assert docs[..i] == docs;
  }

  const MappingErrorTitle: string := "エラーが発生しました"
  const MappingErrorMessage: string := "データの取得中にエラーが発生しました。もう一度お試しください。"

  /** The alert for an error thrown while mapping a snapshot: the Firebase
      message is appended, any other error is not shown. */
  function MappingFailedAlert(e: Error): Effect
  {
    match e
    case FirebaseError(_, message) => Alert(MappingErrorTitle, MappingErrorMessage + message)
    case OtherError(_, _) => Alert(MappingErrorTitle, MappingErrorMessage)
  }

  // ---------------------------------------------------------------- screen

  /** An open live query: its teardown, the collection it reads, its order,
      and the catalog its callback resolves priority codes with. */
  datatype Listener = Listener(teardown: Teardown, path: string, sortType: SortType,
                               sortOrder: OrderByDirection, catalog: seq<PriorityType>)

  class ListScreen {
    /** The `useReducer` state. */
    var state: ListState
    /** The live query opened by the last run of the list effect, if any. */
    var listener: Option<Listener>

    constructor ()
      ensures state == InitialState && listener == None
    {
      state := InitialState;
      listener := None;
    }

    /** `dispatch(action)` */
    method Dispatch(action: ListAction)
      modifies this
      ensures state == ListReduce(old(state), action) && listener == old(listener)
    {
      state := ListReduce(state, action);
    }

    /** One run of the list effect, after React has run the previous run's
        cleanup (which closes the listener it opened). Without a user nothing
        is opened. Otherwise the items are reset to [], a live query over
        ScopePath is opened in the current order with the current catalog,
        and the registry is given an updater returning its teardown, so the
        registry ends up holding the teardown itself. The catalog guard
        never stops the run. */
    method RunListEffect(user: Option<CurrentUser>, anonymous: string, teardown: Teardown,
                         registry: UnsubscribeProvider) returns (closed: Option<Teardown>)
      modifies this, registry
      ensures closed == (if old(listener).Some? then Some(old(listener).value.teardown) else None)
      ensures user.None? ==>
                state == old(state) && listener == None && registry.unsubscribe == old(registry.unsubscribe)
      ensures user.Some? ==>
                && state == old(state).(items := Some([]))
                && listener == Some(Listener(teardown, ScopePath(anonymous, user.value.uid),
                                             old(state).sortType, old(state).sortOrder, old(state).priorityType))
                && registry.unsubscribe == Some(teardown)
    {
      closed := None;
      if listener.Some? {
        closed := Some(listener.value.teardown);
        listener := None;
      }
      if user.None? {
        return;
      }
      Dispatch(SetItems(Some([])));
      var collectionPath := ScopePath(anonymous, user.value.uid);
      listener := Some(Listener(teardown, collectionPath, state.sortType, state.sortOrder, state.priorityType));
      registry.SetUnsubscribe(Updater(_ => Some(teardown)));
    }

    /** The listener's callback for one snapshot. The records are built and
        stored with SET_ITEMS; an error thrown while mapping alerts and skips
        SET_ITEMS, so the items keep their previous value. */
    method OnSnapshot(docs: seq<SnapshotDoc>, failure: Option<Error>) returns (log: seq<Effect>)
      requires listener.Some?
      modifies this
      ensures listener == old(listener)
      ensures failure.None? ==>
                state == old(state).(items := Some(MapSnapshot(docs, old(listener).value.catalog))) && log == []
      ensures failure.Some? ==> state == old(state) && log == [MappingFailedAlert(failure.value)]
    {
      log := [];
      if failure.Some? {
        log := log + [MappingFailedAlert(failure.value)];
        return;
      }
      var tempItems := BuildItems(docs, listener.value.catalog);
      Dispatch(SetItems(Some(tempItems)));
    }

    /** The two parent setters called with a picked sort, then the list
        effect when its dependencies changed: a different type or order
        tears the old listener down and opens one in the new order; picking
        the current sort again leaves the listener alone. */
    method OnSortSelected(sortType: SortType, sortOrder: OrderByDirection, user: Option<CurrentUser>,
                          anonymous: string, teardown: Teardown, registry: UnsubscribeProvider)
      returns (closed: Option<Teardown>, rerun: bool)
      modifies this, registry
      ensures state.sortType == sortType && state.sortOrder == sortOrder
      ensures state.priorityType == old(state).priorityType
      ensures rerun <==> (sortType, sortOrder) != (old(state).sortType, old(state).sortOrder)
      ensures !rerun ==> state == old(state) && listener == old(listener) && closed == None &&
                         registry.unsubscribe == old(registry.unsubscribe)
      ensures rerun ==> closed == (if old(listener).Some? then Some(old(listener).value.teardown) else None)
      ensures rerun && user.None? ==>
                && state == old(state).(sortType := sortType, sortOrder := sortOrder)
                && listener == None && registry.unsubscribe == old(registry.unsubscribe)
      ensures rerun && user.Some? ==>
                && state == old(state).(sortType := sortType, sortOrder := sortOrder, items := Some([]))
                && listener == Some(Listener(teardown, ScopePath(anonymous, user.value.uid),
                                             sortType, sortOrder, old(state).priorityType))
                && registry.unsubscribe == Some(teardown)
    {
      var before := state;
      Dispatch(SetSortType(sortType));
      Dispatch(SetSortOrder(sortOrder));
      rerun := (state.sortType, state.sortOrder) != (before.sortType, before.sortOrder);
      closed := None;
      if rerun {
        closed := RunListEffect(user, anonymous, teardown, registry);
      }
    }

    /** A change of the sort picker: the picker stores the key and hands the
        parsed pair to the screen's setters. */
    method OnPickerChange(picker: ListSort.ListSortPicker, itemValue: string, user: Option<CurrentUser>,
                          anonymous: string, teardown: Teardown, registry: UnsubscribeProvider)
      returns (closed: Option<Teardown>, rerun: bool)
      requires IsSortOptionKey(itemValue)
      modifies this, picker, registry
      ensures picker.pickerValue == itemValue
      ensures ParseKey(itemValue) == Some((state.sortType, state.sortOrder))
      ensures FormatKey(state.sortType, state.sortOrder) == itemValue
      ensures state.priorityType == old(state).priorityType
      ensures rerun <==> FormatKey(old(state).sortType, old(state).sortOrder) != itemValue
      ensures !rerun ==> state == old(state) && listener == old(listener) && closed == None &&
                         registry.unsubscribe == old(registry.unsubscribe)
      ensures rerun ==> closed == (if old(listener).Some? then Some(old(listener).value.teardown) else None)
      ensures rerun && user.None? ==>
                && state == old(state).(sortType := state.sortType, sortOrder := state.sortOrder)
                && listener == None && registry.unsubscribe == old(registry.unsubscribe)
      ensures rerun && user.Some? ==>
                && state == old(state).(sortType := state.sortType, sortOrder := state.sortOrder, items := Some([]))
                && listener == Some(Listener(teardown, ScopePath(anonymous, user.value.uid),
                                             state.sortType, state.sortOrder, old(state).priorityType))
                && registry.unsubscribe == Some(teardown)
    {
      var t, o := picker.HandlePickerChange(itemValue);
      ParseFormat(t, o);
      FormatInjective(t, o, old(state).sortType, old(state).sortOrder);
      closed, rerun := OnSortSelected(t, o, user, anonymous, teardown, registry);
    }

    /** The catalog setter: SET_PRIORITY_TYPE, then the list effect, which
        always runs again because the new array is never the old one. */
    method OnPriorityTypesLoaded(types: seq<PriorityType>, user: Option<CurrentUser>, anonymous: string,
                                 teardown: Teardown, registry: UnsubscribeProvider)
      returns (closed: Option<Teardown>)
      modifies this, registry
      ensures closed == (if old(listener).Some? then Some(old(listener).value.teardown) else None)
      ensures user.None? ==>
                && state == old(state).(priorityType := types)
                && listener == None && registry.unsubscribe == old(registry.unsubscribe)
      ensures user.Some? ==>
                && state == old(state).(priorityType := types, items := Some([]))
                && listener == Some(Listener(teardown, ScopePath(anonymous, user.value.uid),
                                             old(state).sortType, old(state).sortOrder, types))
                && registry.unsubscribe == Some(teardown)
    {
      Dispatch(SetPriorityType(types));
      closed := RunListEffect(user, anonymous, teardown, registry);
    }
  }
}
