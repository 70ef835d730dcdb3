/**
 * The drag-completion handler `onDragEnd` of nocode-dashboard/src/App.tsx, as a
 * function from the old layout and the drop event to the new layout.
 */
module DragCoordinator {
  import opened Wrappers
  import opened WidgetTypes
  import opened Splice
  import opened LayoutStore

  /** The droppable that holds the placed widgets. */
  const DashboardZone: string := "dashboard-area"
  /** The droppable that lists the catalog entries (drops onto it are disabled). */
  const SidebarZone: string := "sidebar-widgets"

  /** A position in a droppable, as the drag library reports it. */
  datatype DraggableLocation = DraggableLocation(droppableId: string, index: nat)

  /** The library's `DropResult`: where the drag started, where it was released (if on a droppable), and what was dragged. */
  datatype DropResult = DropResult(source: DraggableLocation, destination: Option<DraggableLocation>, draggableId: string)

  /** The drop moves a placed widget within the dashboard. */
  predicate IsReorder(r: DropResult)
    ensures IsReorder(r) ==> r.destination.Some?
  {
    r.destination.Some? && r.source.droppableId == DashboardZone
    && r.destination.value.droppableId == DashboardZone
  }

  /** The drop brings a catalog entry onto the dashboard. */
  predicate IsInsert(r: DropResult)
    ensures IsInsert(r) ==> r.destination.Some? && !IsReorder(r)
  {
    r.destination.Some? && r.source.droppableId == SidebarZone
    && r.destination.value.droppableId == DashboardZone
  }

  /** The drag library reports a reorder's source index inside the list it dragged from. */
  predicate WellFormedDrop(ws: seq<DashboardWidget>, r: DropResult)
  {
    IsReorder(r) ==> r.source.index < |ws|
  }

  /** The widget a catalog drop creates: a fresh id, the entry's id as kind, its name as title. */
  function NewWidget(t: WidgetType, freshId: string): (w: DashboardWidget)
    ensures w.id == freshId && w.kind == t.id && w.title == t.name
  {
    DashboardWidget(freshId, t.id, t.name)
  }

  /** The layout after `onDragEnd(r)`; `freshId` is what `uuidv4()` returns if it is called. */
  function AfterDrop(ws: seq<DashboardWidget>, r: DropResult, freshId: string): (out: seq<DashboardWidget>)
    requires WellFormedDrop(ws, r)
    ensures r.destination.None? ==> out == ws
    ensures |out| == |ws| || (IsInsert(r) && |out| == |ws| + 1)
  {
    if r.destination.None? then ws
    else if IsReorder(r) then Moved(ws, r.source.index, r.destination.value.index)
    else if IsInsert(r) then
      match FindType(r.draggableId)
      case None => ws
      case Some(t) => Inserted(ws, r.destination.value.index, NewWidget(t, freshId))
    else ws
  }

  /**
   * A drop that is not a reorder, not an insert, or is an insert of an unknown
   * catalog id leaves the layout exactly as it was; this covers a drag released
   * outside every droppable.
   */
  lemma NoOpDrops(ws: seq<DashboardWidget>, r: DropResult, freshId: string)
    requires WellFormedDrop(ws, r)
    requires r.destination.None? || (!IsReorder(r) && !IsInsert(r)) || (IsInsert(r) && FindType(r.draggableId).None?)
    ensures AfterDrop(ws, r, freshId) == ws
  {
  }

  /** Only the catalog ids text, chart and image can add a widget; any other dragged id is a no-op. */
  lemma UnknownTypeIsNoOp(ws: seq<DashboardWidget>, r: DropResult, freshId: string)
    requires IsInsert(r) && r.draggableId !in {"text", "chart", "image"}
    ensures AfterDrop(ws, r, freshId) == ws
  {
    FindTypeHitsExactlyCatalogIds(r.draggableId);
  }

  /**
   * A reorder keeps the length and the multiset of widgets, puts the dragged
   * widget at the destination index clamped to the last position, and keeps the
   * other widgets in their relative order.
   */
  lemma ReorderShape(ws: seq<DashboardWidget>, r: DropResult, freshId: string)
    requires IsReorder(r) && WellFormedDrop(ws, r)
    ensures |AfterDrop(ws, r, freshId)| == |ws|
    ensures multiset(AfterDrop(ws, r, freshId)) == multiset(ws)
    ensures AfterDrop(ws, r, freshId)[ClampIndex(r.destination.value.index, |ws| - 1)] == ws[r.source.index]
    ensures Removed(AfterDrop(ws, r, freshId), ClampIndex(r.destination.value.index, |ws| - 1))
            == Removed(ws, r.source.index)
  {
    MovedShape(ws, r.source.index, r.destination.value.index);
  }

  /** Dropping a widget at the index it came from returns the original list. */
  lemma ReorderInPlace(ws: seq<DashboardWidget>, r: DropResult, freshId: string)
    requires IsReorder(r) && WellFormedDrop(ws, r) && r.source.index == r.destination.value.index
    ensures AfterDrop(ws, r, freshId) == ws
  {
    MovedInPlace(ws, r.source.index);
  }

  /**
   * Dropping a catalog entry adds one widget at the destination index (clamped
   * to the old length) carrying the entry's id and name, and keeps every widget
   * that was there, in the same relative order.
   */
  lemma InsertShape(ws: seq<DashboardWidget>, r: DropResult, freshId: string)
    requires IsInsert(r) && FindType(r.draggableId).Some?
    ensures |AfterDrop(ws, r, freshId)| == |ws| + 1
    ensures AfterDrop(ws, r, freshId)[ClampIndex(r.destination.value.index, |ws|)]
            == DashboardWidget(freshId, r.draggableId, FindType(r.draggableId).value.name)
    ensures Removed(AfterDrop(ws, r, freshId), ClampIndex(r.destination.value.index, |ws|)) == ws
  {
    InsertedShape(ws, r.destination.value.index, NewWidget(FindType(r.draggableId).value, freshId));
  }

  /** Taking a widget out of a list with unique ids leaves unique ids, none of them the taken widget's. */
  lemma RemovedKeepsUniqueIds(ws: seq<DashboardWidget>, from: nat)
    requires from < |ws| && UniqueIds(ws)
    ensures UniqueIds(Removed(ws, from))
    ensures ws[from].id !in Ids(Removed(ws, from))
  {
    var t := Removed(ws, from);
    assert forall i :: 0 <= i < |t| ==> t[i] == (if i < from then ws[i] else ws[i + 1]);
  }

  /** Inserting a widget whose id is new into a list with unique ids keeps the ids unique. */
  lemma InsertedKeepsUniqueIds(ws: seq<DashboardWidget>, at: nat, w: DashboardWidget)
    requires UniqueIds(ws) && w.id !in Ids(ws)
    ensures UniqueIds(Inserted(ws, at, w))
  {
    var out := Inserted(ws, at, w);
    var k := ClampIndex(at, |ws|);
    InsertedShape(ws, at, w);
    forall i, j | 0 <= i < j < |out| ensures out[i].id != out[j].id {
      var i' := if i < k then i else i - 1;
      var j' := if j < k then j else j - 1;
      if i == k {
        assert Ids(ws)[j'] == out[j].id;
      } else if j == k {
        assert Ids(ws)[i'] == out[i].id;
      } else {
        assert out[i] == ws[i'] && out[j] == ws[j'] && i' < j';
      }
    }
  }

  /** Ids stay unique under every drop, provided the generated id is not already in use. */
  lemma DropKeepsUniqueIds(ws: seq<DashboardWidget>, r: DropResult, freshId: string)
    requires WellFormedDrop(ws, r) && UniqueIds(ws)
    requires freshId !in Ids(ws)
    ensures UniqueIds(AfterDrop(ws, r, freshId))
  {
    if r.destination.None? {
    } else if IsReorder(r) {
      RemovedKeepsUniqueIds(ws, r.source.index);
      InsertedKeepsUniqueIds(Removed(ws, r.source.index), r.destination.value.index, ws[r.source.index]);
    } else if IsInsert(r) && FindType(r.draggableId).Some? {
      InsertedKeepsUniqueIds(ws, r.destination.value.index, NewWidget(FindType(r.draggableId).value, freshId));
    }
  }
}
