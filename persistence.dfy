/**
 * The layout's persistence in browser local storage (nocode-dashboard/src/App.tsx):
 * one fixed key, written by the save button, read by the load button and at boot.
 * JSON text is abstracted to what `JSON.parse` and `Array.isArray` can tell apart.
 */
module Persistence {
  import opened WidgetTypes

  /** `LOCAL_STORAGE_KEY`: the one slot the layout lives in. */
  const LayoutKey: string := "dashboardLayout"

  /**
   * A string held in local storage, as the load path classifies it: the empty
   * string (which the `if (savedLayout)` test treats like a missing key), text
   * `JSON.parse` rejects, valid JSON that is not an array, or a JSON array.
   */
  datatype StoredValue = EmptyText | Malformed | NonArray | Array(items: seq<DashboardWidget>)

  /** Local storage: string keys to stored strings. */
  type Storage = map<string, StoredValue>

  /** What reading the layout slot yields; each case has its own notification. */
  datatype ReadResult = Found(layout: seq<DashboardWidget>) | NotFound | NotAnArray | ParseError

  const LoadedMessage: string := "Dashboard loaded!"
  const NotFoundMessage: string := "No saved dashboard found."
  const NotAnArrayMessage: string := "Saved data is not in correct format."
  const ParseErrorMessage: string := "Failed to load dashboard."
  const SavedMessage: string := "Dashboard saved!"
  const SaveFailedMessage: string := "Failed to save dashboard."

  /** `JSON.stringify(widgets)`: always a JSON array, never the empty string. */
  function Encode(widgets: seq<DashboardWidget>): (v: StoredValue)
    ensures v.Array? && v.items == widgets
  {
    Array(widgets)
  }

  /** `getItem(LOCAL_STORAGE_KEY)`, the truthiness test, `JSON.parse` and `Array.isArray`, in that order. */
  function ReadLayout(store: Storage): (r: ReadResult)
    ensures r.NotFound? <==> LayoutKey !in store || store[LayoutKey] == EmptyText
    ensures r.ParseError? <==> LayoutKey in store && store[LayoutKey] == Malformed
    ensures r.NotAnArray? <==> LayoutKey in store && store[LayoutKey] == NonArray
    ensures r.Found? <==> LayoutKey in store && store[LayoutKey].Array?
    ensures r.Found? ==> r.layout == store[LayoutKey].items
  {
    if LayoutKey !in store then NotFound
    else match store[LayoutKey]
      case EmptyText => NotFound
      case Malformed => ParseError
      case NonArray => NotAnArray
      case Array(items) => Found(items)
  }

  /** The alert the load button raises for each outcome. */
  function LoadMessage(r: ReadResult): (m: string)
    ensures m == LoadedMessage <==> r.Found?
  {
    match r
    case Found(_) => LoadedMessage
    case NotFound => NotFoundMessage
    case NotAnArray => NotAnArrayMessage
    case ParseError => ParseErrorMessage
  }

  /** Every load outcome is reported by a message no other outcome uses. */
  lemma LoadMessagesDistinct(r1: ReadResult, r2: ReadResult)
    requires LoadMessage(r1) == LoadMessage(r2)
    ensures r1.Found? <==> r2.Found?
    ensures r1.NotFound? <==> r2.NotFound?
    ensures r1.NotAnArray? <==> r2.NotAnArray?
    ensures r1.ParseError? <==> r2.ParseError?
  {
    assert LoadedMessage[0] == 'D' && NotFoundMessage[0] == 'N';
    assert NotAnArrayMessage[0] == 'S' && ParseErrorMessage[0] == 'F';
  }

  /** The storage after `setItem(LOCAL_STORAGE_KEY, JSON.stringify(widgets))`; `written` is false when the write throws. */
  function SaveLayout(store: Storage, widgets: seq<DashboardWidget>, written: bool): (s: Storage)
    ensures written ==> LayoutKey in s && s[LayoutKey] == Encode(widgets)
    ensures !written ==> s == store
    ensures forall key :: key in store && key != LayoutKey ==> key in s && s[key] == store[key]
    ensures s.Keys <= store.Keys + {LayoutKey}
  {
    if written then store[LayoutKey := Encode(widgets)] else store
  }

  /** Reading back what a successful save wrote gives the same widgets in the same order. */
  lemma SaveThenRead(store: Storage, widgets: seq<DashboardWidget>)
    ensures ReadLayout(SaveLayout(store, widgets, true)) == Found(widgets)
  {
  }

  /** A failed save leaves what a later read sees exactly as it was. */
  lemma FailedSaveKeepsStoredLayout(store: Storage, widgets: seq<DashboardWidget>)
    ensures ReadLayout(SaveLayout(store, widgets, false)) == ReadLayout(store)
  {
  }

  /** `defaultInitialWidgets`: one text widget titled "Welcome Widget"; its id comes from the id generator. */
  function DefaultWidgets(welcomeId: string): (ws: seq<DashboardWidget>)
    ensures |ws| == 1 && ws[0].id == welcomeId
    ensures ws[0].kind == "text" && ws[0].title == "Welcome Widget"
  {
    [DashboardWidget(welcomeId, "text", "Welcome Widget")]
  }

  /** The boot initialiser: a stored array becomes the first layout; anything else falls back to the default. */
  function InitialWidgets(store: Storage, welcomeId: string): (ws: seq<DashboardWidget>)
    ensures ReadLayout(store).Found? ==> ws == store[LayoutKey].items
    ensures !ReadLayout(store).Found? ==> ws == DefaultWidgets(welcomeId)
  {
    match ReadLayout(store)
    case Found(layout) => layout
    case _ => DefaultWidgets(welcomeId)
  }

  /** Boot after a successful save starts from the saved layout. */
  lemma BootAfterSave(store: Storage, widgets: seq<DashboardWidget>, welcomeId: string)
    ensures InitialWidgets(SaveLayout(store, widgets, true), welcomeId) == widgets
  {
    SaveThenRead(store, widgets);
  }
}
