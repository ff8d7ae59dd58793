// Entities of the application, after types/list.ts, types/priorityType.ts and
// types/outPutBuyItem.ts.

module Types {

  datatype Option<+T> = None | Some(value: T)

  /** The field a list is ordered by ('updatedAt' | 'priority'). */
  datatype SortType = UpdatedAt | Priority

  /** The direction of the order ('asc' | 'desc'). */
  datatype OrderByDirection = Asc | Desc

  /** A store timestamp; only its presence matters to the model. */
  type Timestamp = int

  /** One entry of the priority catalog after projection: `{ id, name }`. */
  datatype PriorityType = PriorityType(id: int, name: string)

  /** The data of one `priorityType` document: `disabled` may be absent. */
  datatype PriorityDoc = PriorityDoc(id: int, name: string, disabled: Option<bool>)

  /** The data of one `buyItem/<uid>/items/<id>` document; older documents
      may lack any field, so each one is optional. */
  datatype ItemData = ItemData(bodyText: Option<string>, updatedAt: Option<Timestamp>, priority: Option<int>)

  /** One document of a list snapshot: its id and, when present, its data. */
  datatype SnapshotDoc = SnapshotDoc(id: string, data: Option<ItemData>)

  /** One display record of the list (OutPutBuyItem). */
  datatype OutPutBuyItem = OutPutBuyItem(id: string, bodyText: Option<string>, updatedAt: Option<Timestamp>, priority: string)

  function SortTypeName(t: SortType): string
  {
    match t
    case UpdatedAt => "updatedAt"
    case Priority => "priority"
  }

  function OrderName(o: OrderByDirection): string
  {
    match o
    case Asc => "asc"
    case Desc => "desc"
  }

  /** The inverse of SortTypeName on the strings of the union type. */
  function SortTypeOf(s: string): (r: Option<SortType>)
    ensures r.Some? <==> s in {"updatedAt", "priority"}
    ensures r.Some? ==> SortTypeName(r.value) == s
  {
    if s == "updatedAt" then Some(UpdatedAt)
    else if s == "priority" then Some(Priority)
    else None
  }

  /** The inverse of OrderName on the strings of the union type. */
  function OrderOf(s: string): (r: Option<OrderByDirection>)
    ensures r.Some? <==> s in {"asc", "desc"}
    ensures r.Some? ==> OrderName(r.value) == s
  {
    if s == "asc" then Some(Asc)
    else if s == "desc" then Some(Desc)
    else None
  }

  lemma NamesRoundTrip(t: SortType, o: OrderByDirection)
    ensures SortTypeOf(SortTypeName(t)) == Some(t)
    ensures OrderOf(OrderName(o)) == Some(o)
  {
  }
}
