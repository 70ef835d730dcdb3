/**
 * The `App` component of nocode-dashboard/src/App.tsx as an object: its two
 * state cells, `widgets` and `editingWidget`, are fields, and each handler is a
 * method that overwrites them. The id generator, the outcome of a storage write
 * and the storage itself are parameters.
 */
module Dashboard {
  import opened Wrappers
  import opened WidgetTypes
  import opened Splice
  import opened Persistence
  import opened LayoutStore
  import opened DragCoordinator

  class App {
    /** The placed widgets, in rendering order. */
    var widgets: seq<DashboardWidget>
    /** The widget whose title the edit dialog is open on, if any. */
    var editing: Option<DashboardWidget>

    /** Mounting the component: the `useState` initialiser reads storage; `welcomeId` is the default widget's generated id. */
    constructor (store: Storage, welcomeId: string)
      ensures widgets == InitialWidgets(store, welcomeId)
      ensures editing == None
    {
      match ReadLayout(store) {
        case Found(layout) => widgets := layout;
        case _ => widgets := DefaultWidgets(welcomeId);
      }
      editing := None;
    }

    /** `handleSaveDashboard`: write the layout under the fixed key; `written` is false when `setItem` throws. */
    method SaveDashboard(store: Storage, written: bool) returns (store': Storage, message: string)
      ensures written ==> store' == store[LayoutKey := Encode(widgets)] && message == SavedMessage
      ensures !written ==> store' == store && message == SaveFailedMessage
      ensures ReadLayout(store') == if written then Found(widgets) else ReadLayout(store)
    {
      if written {
        store' := store[LayoutKey := Encode(widgets)];
        message := SavedMessage;
      } else {
        store' := store;
        message := SaveFailedMessage;
      }
    }

    /** `handleLoadDashboard`: install a stored array; otherwise keep the layout. Returns the alert text. */
    method LoadDashboard(store: Storage) returns (message: string)
      modifies this`widgets
      ensures message == LoadMessage(ReadLayout(store))
      ensures ReadLayout(store).Found? ==> widgets == store[LayoutKey].items
      ensures !ReadLayout(store).Found? ==> widgets == old(widgets)
    {
      var r := ReadLayout(store);
      if r.Found? {
        widgets := r.layout;
      }
      message := LoadMessage(r);
    }

    /** `handleEditWidget`: open the dialog on the first widget with the id; a miss changes nothing. */
    method EditWidget(widgetId: string)
      modifies this`editing
      ensures FindById(widgets, widgetId).Some? ==> editing == FindById(widgets, widgetId)
      ensures FindById(widgets, widgetId).None? ==> editing == old(editing)
    {
      var found := FindById(widgets, widgetId);
      if found.Some? {
        editing := found;
      }
    }

    /** `handleSaveTitle`: give every widget with the id the new title and close the dialog. */
    method SaveTitle(widgetId: string, newTitle: string)
      modifies this
      ensures widgets == Retitled(old(widgets), widgetId, newTitle)
      ensures editing == None
    {
      widgets := Retitled(widgets, widgetId, newTitle);
      editing := None;
    }

    /** `handleCancelEdit`: close the dialog; the layout is untouched. */
    method CancelEdit()
      modifies this`editing
      ensures editing == None
    {
      editing := None;
    }

    /**
     * `onDragEnd`: reorder, insert a new widget, or do nothing. `freshId` is the
     * value `uuidv4()` would produce for the new widget.
     */
    method OnDragEnd(r: DropResult, freshId: string)
      requires WellFormedDrop(widgets, r)
      modifies this`widgets
      ensures widgets == AfterDrop(old(widgets), r, freshId)
    {
      if r.destination.None? {
        return;
      }
      var destination := r.destination.value;
      if r.source.droppableId == DashboardZone && destination.droppableId == DashboardZone {
        widgets := Reorder(widgets, r.source.index, destination.index);
      } else if r.source.droppableId == SidebarZone && destination.droppableId == DashboardZone {
        var t := FindType(r.draggableId);
        if t.None? {
          return;
        }
        widgets := InsertAt(widgets, destination.index, NewWidget(t.value, freshId));
      }
    }
  }

  /**
   * Save, then a drag, then load: with a successful write, the load button
   * reinstalls exactly the saved layout, undoing the drag, and reports success.
   */
  method SaveDragLoad(app: App, store: Storage, r: DropResult, freshId: string) returns (message: string)
    requires WellFormedDrop(app.widgets, r)
    modifies app`widgets
    ensures app.widgets == old(app.widgets)
    ensures message == LoadedMessage
  {
    var store', saveMessage := app.SaveDashboard(store, true);
    app.OnDragEnd(r, freshId);
    message := app.LoadDashboard(store');
  }
}
