/** The list picker of src/components/ListSelector.tsx: the cached lists of
    the current user, the selection held by the parent page, the create and
    rename inputs, and the list whose share dialog is open. */
module ListSelector {
  import opened Wrappers
  import opened Text
  import opened Seqs
  import ShareDialog

  /** A row of the `lists` table (`List` of src/types/index.ts). */
  datatype List = List(id: string, userId: string, name: string, createdAt: string)

  /** The row sent by `createList`. */
  datatype NewList = NewList(name: string, userId: string)

  function ListId(l: List): string { l.id }

  /** `isOwner`: the list belongs to the signed-in user; never while nobody is. */
  function IsOwner(list: List, currentUserId: Option<string>): (r: bool)
    ensures r <==> currentUserId.Some? && currentUserId.value == list.userId
    ensures currentUserId.None? ==> !r
  {
    currentUserId == Some(list.userId)
  }

  /** The selection after the initial fetch: with nothing selected, the first
      fetched list (the oldest, the query orders by `created_at`). */
  function AutoSelect(selected: Option<string>, fetched: seq<List>): (r: Option<string>)
    ensures Present(selected) ==> r == selected
    ensures !Present(selected) && fetched != [] ==> r == Some(fetched[0].id)
    ensures !Present(selected) && fetched == [] ==> r == selected
  {
    if !Present(selected) && |fetched| > 0 then Some(fetched[0].id) else selected
  }

  /** `lists.map((l) => l.id === id ? { ...l, name } : l)` */
  function RenamedLists(lists: seq<List>, id: string, name: string): (r: seq<List>)
    ensures |r| == |lists|
    ensures forall i :: 0 <= i < |lists| ==>
      && r[i].id == lists[i].id && r[i].userId == lists[i].userId
      && r[i].createdAt == lists[i].createdAt
      && r[i].name == (if lists[i].id == id then name else lists[i].name)
  {
    UpdateKey(ListId, lists, id, (l: List) => l.(name := name))
  }

  /** `lists.filter((l) => l.id !== id)` */
  function RemoveList(lists: seq<List>, id: string): (r: seq<List>)
    ensures forall l :: l in r <==> l in lists && l.id != id
  {
    RemoveKey(ListId, lists, id)
  }

  /** The fallback after `removed` leaves the lists: when it was the selected
      one, the first remaining list, or nothing once none remain; otherwise the
      selection is untouched. */
  function SelectionAfterRemoval(remaining: seq<List>, selected: Option<string>, removed: string)
    : (r: Option<string>)
    ensures selected != Some(removed) ==> r == selected
    ensures selected == Some(removed) && remaining == [] ==> r == None
    ensures selected == Some(removed) && remaining != [] ==> r == Some(remaining[0].id)
  {
    if selected == Some(removed) then
      if |remaining| > 0 then Some(remaining[0].id) else None
    else selected
  }

  /** The selection names a list that is present (or nothing at all). */
  predicate SelectionValid(lists: seq<List>, selected: Option<string>)
  {
    selected.None? || exists l :: l in lists && l.id == selected.value
  }

  /** Removing a list (by deleting it, or by leaving it) never leaves the
      selection on that list, and a selection that named a present list still
      does afterwards. */
  lemma RemovalKeepsSelectionValid(lists: seq<List>, selected: Option<string>, id: string)
    requires SelectionValid(lists, selected)
    ensures var remaining := RemoveList(lists, id);
      var next := SelectionAfterRemoval(remaining, selected, id);
      SelectionValid(remaining, next) && next != Some(id)
  {
    var remaining := RemoveList(lists, id);
    if selected == Some(id) {
      if remaining != [] {
        assert remaining[0] in remaining;
      }
    } else if selected.Some? {
      var l :| l in lists && l.id == selected.value;
      assert l in remaining;
    }
  }

  /** Removing keeps the other lists in their order. */
  lemma RemovalKeepsOrder(front: seq<List>, back: seq<List>, id: string)
    ensures RemoveList(front + back, id) == RemoveList(front, id) + RemoveList(back, id)
  {
    RemoveKeyConcat(ListId, front, back, id);
  }

  /** The deletion case of src/components/ListSelector.test.tsx: with
      "Groceries" selected, deleting it selects "Work". */
  lemma DeleteSelectedPicksNext(groceries: List, work: List)
    requires groceries.id == "list-1" && work.id == "list-2"
    ensures var remaining := RemoveList([groceries, work], "list-1");
      remaining == [work] && SelectionAfterRemoval(remaining, Some("list-1"), "list-1") == Some("list-2")
  {
    assert RemoveList([work], "list-1") == [work];
  }

  /** The state of one ListSelector, together with the selection its parent
      keeps and passes back in (`onSelectList` writes `selectedListId`). */
  class ListSelector {
    var lists: seq<List>
    var currentUserId: Option<string>
    var isLoading: bool
    var newListName: string
    var editingId: Option<string>
    var editingName: string
    var shareDialogListId: Option<string>
    var selectedListId: Option<string>

    constructor (selected: Option<string>)
      ensures lists == [] && currentUserId == None && isLoading
      ensures newListName == "" && editingId == None && editingName == ""
      ensures shareDialogListId == None && selectedListId == selected
    {
      lists, currentUserId, isLoading := [], None, true;
      newListName, editingId, editingName := "", None, "";
      shareDialogListId, selectedListId := None, selected;
    }

    /** `fetchLists`, given the signed-in user and the answer of the lists query. */
    method FetchLists(user: Option<string>, reply: Reply<seq<List>>)
      modifies this`currentUserId, this`lists, this`selectedListId, this`isLoading
      ensures currentUserId == if user.Some? then user else old(currentUserId)
      ensures lists == if reply.Ok? then reply.data else old(lists)
      ensures selectedListId ==
        if reply.Ok? then AutoSelect(old(selectedListId), reply.data) else old(selectedListId)
      ensures !isLoading
    {
      if user.Some? {
        currentUserId := user;
      }
      if reply.Ok? {
        lists := reply.data;
        if !Present(selectedListId) && |reply.data| > 0 {
          selectedListId := Some(reply.data[0].id);
        }
      }
      isLoading := false;
    }

    /** `createList`: returns the row it asks the store to insert, if any; the
        store answers with `reply`. */
    method CreateList(user: Option<string>, reply: Reply<List>) returns (sent: Option<NewList>)
      modifies this`lists, this`newListName, this`selectedListId
      ensures sent == if IsBlank(old(newListName)) || user.None? then None
                      else Some(NewList(Trim(old(newListName)), user.value))
      ensures sent.Some? && reply.Ok? ==>
        && lists == old(lists) + [reply.data] && newListName == ""
        && selectedListId == Some(reply.data.id)
      ensures sent.None? || reply.Failed? ==>
        lists == old(lists) && newListName == old(newListName)
        && selectedListId == old(selectedListId)
    {
      sent := None;
      if IsBlank(newListName) {
        return;
      }
      if user.None? {
        return;
      }
      sent := Some(NewList(Trim(newListName), user.value));
      if reply.Ok? {
        lists := lists + [reply.data];
        newListName := "";
        selectedListId := Some(reply.data.id);
      }
    }

    /** Typing into the new-list input. */
    method SetNewListName(name: string)
      modifies this`newListName
      ensures newListName == name
    {
      newListName := name;
    }

    /** `startEditing` */
    method StartEditing(list: List)
      modifies this`editingId, this`editingName
      ensures editingId == Some(list.id) && editingName == list.name
    {
      editingId := Some(list.id);
      editingName := list.name;
    }

    /** Typing into the rename input. */
    method SetEditingName(name: string)
      modifies this`editingName
      ensures editingName == name
    {
      editingName := name;
    }

    /** `renameList`: returns the name it writes to the store, if any; `ok` is
        the store's answer. Editing ends in every case. */
    method RenameList(id: string, ok: bool) returns (written: Option<string>)
      modifies this`lists, this`editingId
      ensures written == if IsBlank(editingName) then None else Some(Trim(editingName))
      ensures lists == if written.Some? && ok then RenamedLists(old(lists), id, written.value)
                       else old(lists)
      ensures editingId == None
    {
      if IsBlank(editingName) {
        written := None;
        editingId := None;
        return;
      }
      written := Some(Trim(editingName));
      if ok {
        lists := RenamedLists(lists, id, Trim(editingName));
      }
      editingId := None;
    }

    /** `deleteList`: `confirmed` is the answer to the confirmation prompt and
        `ok` the store's answer to the delete. */
    method DeleteList(id: string, confirmed: bool, ok: bool)
      modifies this`lists, this`selectedListId
      ensures confirmed && ok ==>
        && lists == RemoveList(old(lists), id)
        && selectedListId == SelectionAfterRemoval(lists, old(selectedListId), id)
      ensures !(confirmed && ok) ==> lists == old(lists) && selectedListId == old(selectedListId)
    {
      if !confirmed {
        return;
      }
      if ok {
        var remaining := RemoveList(lists, id);
        lists := remaining;
        if selectedListId == Some(id) {
          selectedListId := if |remaining| > 0 then Some(remaining[0].id) else None;
        }
      }
    }

    /** A click on a list: `onSelectList(list.id)` selects it. */
    method SelectList(id: string)
      modifies this`selectedListId
      ensures selectedListId == Some(id)
    {
      selectedListId := Some(id);
    }

    /** The share button of a list opens its dialog. */
    method OpenShareDialog(id: string)
      modifies this`shareDialogListId
      ensures shareDialogListId == Some(id)
    {
      shareDialogListId := Some(id);
    }

    /** The dialog's `onClose`. */
    method CloseShareDialog()
      modifies this`shareDialogListId
      ensures shareDialogListId == None
    {
      shareDialogListId := None;
    }

    /** `handleLeaveList`, the dialog's `onLeave`: the list whose dialog is open
        is dropped, with the same selection fallback as a deletion. */
    method HandleLeaveList()
      modifies this`lists, this`selectedListId
      ensures !Present(old(shareDialogListId)) ==>
        lists == old(lists) && selectedListId == old(selectedListId)
      ensures Present(old(shareDialogListId)) ==>
        && lists == RemoveList(old(lists), shareDialogListId.value)
        && selectedListId ==
             SelectionAfterRemoval(lists, old(selectedListId), shareDialogListId.value)
    {
      if !Present(shareDialogListId) {
        return;
      }
      var remaining := RemoveList(lists, shareDialogListId.value);
      lists := remaining;
      if selectedListId == shareDialogListId {
        selectedListId := if |remaining| > 0 then Some(remaining[0].id) else None;
      }
    }

    /** Leaving from the open share dialog. The dialog is drawn only while
        `shareDialogListId` names a list and is given that id as its `listId`;
        its `handleLeave` calls back into `handleLeaveList` and the close handler. */
    method LeaveFromDialog(confirmed: bool, user: Option<string>)
      returns (outcome: ShareDialog.LeaveOutcome)
      requires Present(shareDialogListId)
      requires exists l :: l in lists && l.id == shareDialogListId.value
      modifies this`lists, this`selectedListId, this`shareDialogListId
      ensures outcome == ShareDialog.HandleLeave(confirmed, user, old(shareDialogListId).value, true)
      ensures outcome.calls == [] ==>
        && lists == old(lists) && selectedListId == old(selectedListId)
        && shareDialogListId == old(shareDialogListId)
      ensures outcome.calls != [] ==>
        && outcome.deleted == Some(ShareDialog.ListShare(old(shareDialogListId).value, user.value))
        && lists == RemoveList(old(lists), old(shareDialogListId).value)
        && selectedListId ==
             SelectionAfterRemoval(lists, old(selectedListId), old(shareDialogListId).value)
        && shareDialogListId == None
    {
      outcome := ShareDialog.HandleLeave(confirmed, user, shareDialogListId.value, true);
      if outcome.calls != [] {
        HandleLeaveList();
        CloseShareDialog();
      }
    }
  }
}
