// One row of the list, src/components/BuyListItem.tsx: the delete button's
// guard, confirm and delete sequence, and the guard that renders nothing for
// an incomplete record.

module BuyListItem {
  import opened Types
  import opened Firebase
  import List

  const TrialDeleteTitle: string := "お試し体験モード中はデータ削除できません。"
  const DeletedTitle: string := "削除が完了しました"
  const DeleteFailedTitle: string := "削除に失敗しました"

  /** `doc(db, 'buyItem/<uid>/items', id)`: always the user's own collection. */
  function ItemDocPath(uid: string, id: string): string
  {
    List.UserScope(uid) + "/" + id
  }

  /** The button the user presses in the confirmation alert. */
  datatype ConfirmChoice = CancelChoice | DeleteChoice

  /** `handlePress(id, anonymous)` of the delete icon: nothing without a
      user; an alert and no delete in trial mode; otherwise confirm, and only
      on the destructive choice delete the document and report the outcome. */
  method HandleDeletePress(user: Option<CurrentUser>, anonymous: string, id: string,
                           choice: ConfirmChoice, deleted: Outcome) returns (log: seq<Effect>)
    ensures user.None? ==> log == []
    ensures user.Some? && anonymous == "true" ==> log == [Alert(TrialDeleteTitle, ChooseCancelMessage)]
    ensures (exists k :: 0 <= k < |log| && log[k].DeleteDoc?) <==>
              user.Some? && anonymous != "true" && choice == DeleteChoice
    ensures forall k :: 0 <= k < |log| && log[k].DeleteDoc? ==>
              user.Some? && log[k].path == ItemDocPath(user.value.uid, id) && k > 0 && log[k - 1] == ConfirmDelete
    ensures user.Some? && anonymous != "true" && choice == CancelChoice ==> log == [ConfirmDelete]
    ensures user.Some? && anonymous != "true" && choice == DeleteChoice ==>
              && |log| == 3
              && (deleted.Ok? ==> log[2] == Alert(DeletedTitle, ""))
              && (deleted.Err? ==> log[2] == Alert(DeleteFailedTitle, ErrorMessage(deleted.error)))
  {
    log := [];
    if user.None? {
      return;
    }
    if anonymous == "true" {
      log := log + [Alert(TrialDeleteTitle, ChooseCancelMessage)];
      return;
    }
    var ref := ItemDocPath(user.value.uid, id);
    log := log + [ConfirmDelete];
    if choice == CancelChoice {
      return;
    }
    log := log + [DeleteDoc(ref)];
    if deleted.Ok? {
      log := log + [Alert(DeletedTitle, "")];
    } else {
      log := log + [Alert(DeleteFailedTitle, ErrorMessage(deleted.error))];
    }
    assert log[1].DeleteDoc?;
  }

  /** The render guard `if (!bodyText || !updatedAt) return null`: a row is
      drawn only for a non-empty body with a time. */
  predicate Renders(item: OutPutBuyItem)
  {
    item.bodyText.Some? && item.bodyText.value != "" && item.updatedAt.Some?
  }

  /** A record of the list is drawn exactly when the document it came from
      has a non-empty body and an update time. */
  lemma RendersIffDocComplete(docs: seq<SnapshotDoc>, catalog: seq<PriorityType>, k: nat)
    requires k < |List.MapSnapshot(docs, catalog)|
    ensures exists i :: 0 <= i < |docs| && docs[i].data.Some? &&
              List.MapSnapshot(docs, catalog)[k] == List.ToItem(docs[i], catalog) &&
              (Renders(List.MapSnapshot(docs, catalog)[k]) <==>
                 docs[i].data.value.bodyText.Some? && docs[i].data.value.bodyText.value != "" &&
                 docs[i].data.value.updatedAt.Some?)
  {
    var item := List.MapSnapshot(docs, catalog)[k];
    List.MapSnapshotMembership(docs, catalog, item);
  }
}
