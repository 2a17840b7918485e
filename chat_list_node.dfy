/**
 * The chat list view (ChatListNode.swift, ChatListViewTransition.swift): it keeps
 * the current snapshot, turns snapshots into items, and turns the output of the
 * list-diffing routine into the records the list view applies.
 *
 * The diffing routine `mergeListsStableWithUpdates` belongs to a module that is not
 * part of this model; it is a parameter of type MergeLists, about which nothing is
 * assumed.
 */
module ChatListNode {
  import opened Wrappers
  import opened ChatListViewModel
  import opened ChatListItems

  datatype DirectionHint = Up | Down

  /** The one scroll position this view asks for: the item's bottom edge, with an offset. */
  datatype ScrollPosition = Bottom(offset: real)

  /** The list view's animation curve; only `.Default(duration:)` is used here. */
  datatype ListAnimationCurve = Default(duration: real)

  datatype ScrollToItem = ScrollToItem(
    index: int, position: ScrollPosition, animated: bool,
    curve: ListAnimationCurve, directionHint: DirectionHint)

  datatype DeleteItem = DeleteItem(index: int, directionHint: Option<DirectionHint>)

  datatype InsertItem = InsertItem(
    index: int, previousIndex: Option<int>, item: ChatListItem, directionHint: Option<DirectionHint>)

  datatype UpdateItem = UpdateItem(
    index: int, previousIndex: int, item: ChatListItem, directionHint: Option<DirectionHint>)

  /** ChatListViewTransition */
  datatype ViewTransition = ViewTransition(
    deleteItems: seq<DeleteItem>,
    insertEntries: seq<InsertItem>,
    updateEntries: seq<UpdateItem>,
    scrollToItem: Option<ScrollToItem>,
    stationaryItemRange: Option<(int, int)>)

  /** The diff's three outputs: deleted old indices; inserted and updated (index, item, previous index). */
  datatype MergeResult = MergeResult(
    deleteIndices: seq<int>,
    indicesAndItems: seq<(int, ChatListItem, Option<int>)>,
    updateIndices: seq<(int, ChatListItem, int)>)

  /** The signature of `mergeListsStableWithUpdates(leftList:rightList:allUpdated:)`. */
  type MergeLists = (seq<ChatListItem>, seq<ChatListItem>, bool) -> MergeResult

  /** The scroll request this view builds: animated, to the bottom of item `index`. */
  function ScrollToBottom(index: int): ScrollToItem {
    ScrollToItem(index, Bottom(0.0), true, Default(0.1), Down)
  }

  /** The guard in `updateDataArray`: only an index strictly between 0 and the new count scrolls. */
  function ScrollTarget(scrollToIndex: Option<int>, count: int): (r: Option<ScrollToItem>)
    ensures r.Some? <==> scrollToIndex.Some? && 0 < scrollToIndex.value < count
    ensures r.Some? ==> r.value.index == scrollToIndex.value && r.value == ScrollToBottom(r.value.index)
  {
    match scrollToIndex
    case Some(index) => if index > 0 && index < count then Some(ScrollToBottom(index)) else None
    case None => None
  }

  /**
   * `mapCellDataToItemArray`: one new item per record, in order. `ids` are the
   * UUIDs the item initialiser generates, one per record.
   */
  function MapCellDataToItemArray(cellDataArray: seq<ChatCellData>, ids: seq<Uuid>): (r: seq<ChatListItem>)
    requires |ids| == |cellDataArray|
    ensures |r| == |cellDataArray|
    ensures forall i :: 0 <= i < |r| ==> r[i] == NewItem(ids[i], cellDataArray[i])
  {
    if cellDataArray == [] then []
    else MapCellDataToItemArray(cellDataArray[..|cellDataArray| - 1], ids[..|ids| - 1])
         + [NewItem(ids[|ids| - 1], cellDataArray[|cellDataArray| - 1])]
  }

  /**
   * Since the initialiser leaves every title empty, any two mapped items are `==`,
   * and they are told apart only by their stable ids.
   */
  lemma MappedItemsAllEqual(cellDataArray: seq<ChatCellData>, ids: seq<Uuid>, i: nat, j: nat)
    requires |ids| == |cellDataArray|
    requires i < |cellDataArray| && j < |cellDataArray|
    ensures Equal(MapCellDataToItemArray(cellDataArray, ids)[i], MapCellDataToItemArray(cellDataArray, ids)[j])
    ensures StableId(MapCellDataToItemArray(cellDataArray, ids)[i]) == ids[i]
  {
  }

  /**
   * The records of `t` are the diff's outputs one for one, in the same order, with
   * the same indices and items and no direction hint.
   */
  predicate RecordsFrom(m: MergeResult, t: ViewTransition) {
    && |t.deleteItems| == |m.deleteIndices|
    && (forall i :: 0 <= i < |m.deleteIndices| ==>
          t.deleteItems[i] == DeleteItem(m.deleteIndices[i], None))
    && |t.insertEntries| == |m.indicesAndItems|
    && (forall i :: 0 <= i < |m.indicesAndItems| ==>
          var (index, entry, previousIndex) := m.indicesAndItems[i];
          t.insertEntries[i] == InsertItem(index, previousIndex, entry, None))
    && |t.updateEntries| == |m.updateIndices|
    && (forall i :: 0 <= i < |m.updateIndices| ==>
          var (index, entry, previousIndex) := m.updateIndices[i];
          t.updateEntries[i] == UpdateItem(index, previousIndex, entry, None))
  }

  /**
   * `createChatListNodeViewTransition`: absent lists count as empty, each diff output
   * becomes one record in the same order with no direction hint, the scroll request
   * passes through, and the stationary range is always dropped.
   */
  method CreateChatListNodeViewTransition(
    fromView: Option<seq<ChatListItem>>, toView: Option<seq<ChatListItem>>,
    scrollPosition: Option<ScrollToItem>, stationaryItemRange: Option<(int, int)>,
    merge: MergeLists)
    returns (t: ViewTransition)
    ensures RecordsFrom(merge(fromView.GetOr([]), toView.GetOr([]), false), t)
    ensures t.scrollToItem == scrollPosition
    ensures t.stationaryItemRange == None
  {
    var adjustedDeleteIndices: seq<DeleteItem> := [];
    var adjustedIndicesAndItems: seq<InsertItem> := [];
    var adjustedUpdateItems: seq<UpdateItem> := [];

    var m := merge(fromView.GetOr([]), toView.GetOr([]), false);

    for k := 0 to |m.deleteIndices|
      invariant |adjustedDeleteIndices| == k
      invariant forall i :: 0 <= i < k ==> adjustedDeleteIndices[i] == DeleteItem(m.deleteIndices[i], None)
    {
      adjustedDeleteIndices := adjustedDeleteIndices + [DeleteItem(m.deleteIndices[k], None)];
    }

    for k := 0 to |m.indicesAndItems|
      invariant |adjustedIndicesAndItems| == k
      invariant forall i :: 0 <= i < k ==>
                  var (index, entry, previousIndex) := m.indicesAndItems[i];
                  adjustedIndicesAndItems[i] == InsertItem(index, previousIndex, entry, None)
    {
      var (index, entry, previousIndex) := m.indicesAndItems[k];
      adjustedIndicesAndItems := adjustedIndicesAndItems + [InsertItem(index, previousIndex, entry, None)];
    }

    for k := 0 to |m.updateIndices|
      invariant |adjustedUpdateItems| == k
      invariant forall i :: 0 <= i < k ==>
                  var (index, entry, previousIndex) := m.updateIndices[i];
                  adjustedUpdateItems[i] == UpdateItem(index, previousIndex, entry, None)
    {
      var (index, entry, previousIndex) := m.updateIndices[k];
      adjustedUpdateItems := adjustedUpdateItems + [UpdateItem(index, previousIndex, entry, None)];
    }

    t := ViewTransition(adjustedDeleteIndices, adjustedIndicesAndItems, adjustedUpdateItems, scrollPosition, None);
  }

  /**
   * The view. The transitions it hands to the list view are returned, since the
   * list view that applies them is not part of this model.
   */
  class ChatListNode {
    var dataArray: seq<ChatCellData>

    constructor ()
      ensures dataArray == []
    {
      dataArray := [];
    }

    /**
     * `updateDataArray`: store the new snapshot and diff the old one against it.
     * `previousIds` and `currentIds` are the UUIDs generated by the two mappings.
     */
    method UpdateDataArray(
      cellDataArray: seq<ChatCellData>, scrollToIndex: Option<int>,
      previousIds: seq<Uuid>, currentIds: seq<Uuid>, merge: MergeLists)
      returns (transition: ViewTransition)
      requires |previousIds| == |dataArray| && |currentIds| == |cellDataArray|
      modifies this
      ensures dataArray == cellDataArray
      ensures RecordsFrom(merge(MapCellDataToItemArray(old(dataArray), previousIds),
                                MapCellDataToItemArray(cellDataArray, currentIds), false), transition)
      ensures transition.scrollToItem == ScrollTarget(scrollToIndex, |cellDataArray|)
      ensures transition.stationaryItemRange == None
    {
      var previousDataArray := dataArray;
      dataArray := cellDataArray;

      var previousItemArray := MapCellDataToItemArray(previousDataArray, previousIds);
      var currentItemArray := MapCellDataToItemArray(dataArray, currentIds);

      var scrollToItem: Option<ScrollToItem> := None;
      if scrollToIndex.Some? {
        var index := scrollToIndex.value;
        if index > 0 && index < |dataArray| {
          scrollToItem := Some(ScrollToBottom(index));
        }
      }

      transition := CreateChatListNodeViewTransition(
        Some(previousItemArray), Some(currentItemArray), scrollToItem, None, merge);
    }

    /**
     * `scrollToLastItem`: diff the empty list against itself and scroll to the last
     * index. No guard: with no records the index is -1.
     */
    method ScrollToLastItem(merge: MergeLists) returns (transition: ViewTransition)
      ensures transition.scrollToItem == Some(ScrollToBottom(|dataArray| - 1))
      ensures transition.stationaryItemRange == None
      ensures RecordsFrom(merge([], [], false), transition)
    {
      var scrollToItem := ScrollToBottom(|dataArray| - 1);
      transition := CreateChatListNodeViewTransition(Some([]), Some([]), Some(scrollToItem), None, merge);
    }
  }
}
