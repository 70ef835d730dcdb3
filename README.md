# No-code dashboard builder: layout state, drag handling and persistence

This project models, in Dafny, the core of a browser dashboard builder. The
dashboard is an ordered list of widget records `{id, type, title}`. The user
changes that list in three ways:

- dragging a placed widget to a new position;
- dragging a widget type from the sidebar catalog onto the dashboard;
- retitling a widget through an edit dialog.

The list is saved to, and loaded from, one key of browser local storage. At
start-up it is read from that key, or falls back to a single "Welcome Widget".

Modules, one per concern of the source:

- `WidgetTypes` (`types.ts`): the `WidgetType` and `DashboardWidget` records,
  the three-entry catalog and its lookup by id. The source's `type` field is
  called `kind`, because `type` is a reserved word in Dafny.
- `Splice`: the `Array.from` copy and `splice` calls of `onDragEnd`. The
  functions `Removed`, `Inserted` and `Moved` say what the calls do. The
  methods `Reorder` and `InsertAt` do the same shifting on an array and are
  proved equal to those functions.
- `LayoutStore`: the `find` by id and the retitling `map`, plus id uniqueness.
- `DragCoordinator`: the drop event, the two droppable ids `dashboard-area`
  and `sidebar-widgets`, and `AfterDrop`, the layout after `onDragEnd`.
- `Persistence`: local storage as a map from keys to classified stored strings.
  It also holds the fixed key `dashboardLayout`, the user-facing messages, the
  default layout and the boot initialiser.
- `Dashboard`: the `App` component as a class. Its fields are the `widgets`
  and `editing` state cells. Its methods are the handlers.
- `EditWidgetModal`: the dialog as a class. It holds the `widget` prop and the
  `title` state cell. Its callbacks to the parent are returned as a list of
  calls.
- `JsText`: `String.prototype.trim` over the ECMAScript white-space and
  line-terminator characters. `Wrappers` holds `Option`.

Behaviour worth noting:

- The catalog droppable is `sidebar-widgets` (`Sidebar.tsx:24`), and the
  dashboard droppable is `dashboard-area`.
- A stored empty string counts as "no saved dashboard", because the code tests
  the stored string for truthiness before parsing it (`App.tsx:23`, `App.tsx:54`).
- Moving a widget from index i to index j and then back restores the list for
  any two in-range indices (`Splice.MovedRoundTrip`).

## Model

| member | source | states |
|---|---|---|
| `WidgetTypes.FindType` | nocode-dashboard/src/App.tsx:94 | a catalog lookup returns an entry of the catalog carrying the id, and nothing exactly when no entry has that id |
| `WidgetTypes.FindTypeFrom` | nocode-dashboard/src/App.tsx:94 | `find` over a list of entries returns the first entry with the id (none before it matches), and nothing exactly when none matches |
| `WidgetTypes.CatalogContents` | nocode-dashboard/src/types.ts:6-10 | the catalog is exactly text/"Text Widget", chart/"Chart Widget", image/"Image Widget" in that order, with pairwise distinct ids |
| `WidgetTypes.FindTypeUnique` | nocode-dashboard/src/types.ts:6-10 | because ids are distinct, looking up an entry's id yields that very entry |
| `WidgetTypes.FindTypeHitsExactlyCatalogIds` | nocode-dashboard/src/types.ts:6-10 | a lookup succeeds if and only if the id is one of text, chart, image |
| `JsText.IsWhitespace` | nocode-dashboard/src/components/EditWidgetModal.tsx:35 | the white-space set `trim` strips: the ECMAScript WhiteSpace and LineTerminator characters, all in the Basic Multilingual Plane |
| `JsText.LeadingWhitespace` | nocode-dashboard/src/components/EditWidgetModal.tsx:35 | the count is the length of the longest all-white-space prefix |
| `JsText.TrailingWhitespace` | nocode-dashboard/src/components/EditWidgetModal.tsx:35 | the count is the length of the longest all-white-space suffix |
| `JsText.Trim` | nocode-dashboard/src/components/EditWidgetModal.tsx:35-36 | the trimmed title is empty exactly when the title is all white space, and otherwise starts and ends with a non-white-space character |
| `JsText.TrimRemovesOnlyEdgeWhitespace` | nocode-dashboard/src/components/EditWidgetModal.tsx:36 | the trimmed title is a contiguous slice of the title, with only white space cut off before and after it |
| `JsText.TrimOfTrimmed` | nocode-dashboard/src/components/EditWidgetModal.tsx:36 | a title with no white space at its ends is left as it is by trimming |
| `JsText.TrimIdempotent` | nocode-dashboard/src/components/EditWidgetModal.tsx:36 | trimming twice equals trimming once |
| `Splice.Removed` | nocode-dashboard/src/App.tsx:90 | `splice(i, 1)`: one element shorter, the elements before `i` in place and those after it shifted down by one; characterised further by `RemovedMultiset` |
| `Splice.Inserted` | nocode-dashboard/src/App.tsx:91 | `splice(i, 0, x)`: one element longer with `x` at the clamped index; characterised further by `InsertedShape`, `InsertedMultiset` and `InsertedFromShape` |
| `Splice.Moved` | nocode-dashboard/src/App.tsx:89-91 | the remove-then-insert reorder: same length, the moved element at the destination clamped to the last index; characterised further by `MovedShape`, `MovedInPlace` and `MovedRoundTrip` |
| `Splice.ClampIndex` | nocode-dashboard/src/App.tsx:91 | an insertion index past the end of the list is clamped to the length (append) |
| `Splice.InsertedShape` | nocode-dashboard/src/App.tsx:98 | splicing in one element puts it at the clamped index, and removing it again gives back the old list (all old elements kept, in order) |
| `Splice.InsertedMultiset` | nocode-dashboard/src/App.tsx:98 | splicing in adds exactly one occurrence of the new element |
| `Splice.RemovedMultiset` | nocode-dashboard/src/App.tsx:90 | splicing out drops exactly one occurrence of the removed element |
| `Splice.MovedShape` | nocode-dashboard/src/App.tsx:89-91 | a reorder keeps the length and the multiset, puts the moved element at the destination clamped to the last index, and keeps the others in relative order |
| `Splice.MovedInPlace` | nocode-dashboard/src/App.tsx:89-91 | moving an element to its own index returns the original list |
| `Splice.MovedRoundTrip` | nocode-dashboard/src/App.tsx:89-91 | moving from i to j and then from j back to i restores the list, for all in-range i and j |
| `Splice.InsertedFromShape` | nocode-dashboard/src/App.tsx:98 | a list holding the old elements in order with one extra element at the clamped index is exactly the spliced-in list |
| `Splice.SpliceOut` | nocode-dashboard/src/App.tsx:90 | removing in place by shifting the tail left leaves exactly the list without that element in the first slots, and no slot past them changes |
| `Splice.SpliceIn` | nocode-dashboard/src/App.tsx:91 | inserting in place by shifting the tail right leaves exactly the spliced-in list in the first slots, and no slot past them changes |
| `Splice.InsertAt` | nocode-dashboard/src/App.tsx:97-98 | copying the list and splicing the new element into the copy yields exactly the spliced-in list |
| `Splice.Reorder` | nocode-dashboard/src/App.tsx:89-91 | copying the list, splicing the element out and splicing it back in at the destination yields exactly the moved list |
| `Persistence.Encode` | nocode-dashboard/src/App.tsx:44 | serialising a layout yields an array holding exactly that layout |
| `Persistence.ReadLayout` | nocode-dashboard/src/App.tsx:53-57 | reading the key gives "not found" for an absent key or empty string, a parse error for malformed text, "not an array" for other JSON, and the stored list for an array |
| `Persistence.LoadMessage` | nocode-dashboard/src/App.tsx:59-68 | the alert for each load outcome; "Dashboard loaded!" exactly on success; `LoadMessagesDistinct` shows the four alerts differ |
| `Persistence.LoadMessagesDistinct` | nocode-dashboard/src/App.tsx:52-70 | the four load outcomes are reported by four different messages |
| `Persistence.SaveLayout` | nocode-dashboard/src/App.tsx:42-49 | a successful save writes the encoded layout under the fixed key and touches no other key; a failed write leaves storage unchanged |
| `Persistence.SaveThenRead` | nocode-dashboard/src/App.tsx:42-58 | reading back after a successful save yields the saved widgets in the same order |
| `Persistence.FailedSaveKeepsStoredLayout` | nocode-dashboard/src/App.tsx:46-49 | after a failed save a read sees what it saw before |
| `Persistence.DefaultWidgets` | nocode-dashboard/src/App.tsx:16-18 | the default layout is one widget of kind text titled "Welcome Widget" with the generated id |
| `Persistence.InitialWidgets` | nocode-dashboard/src/App.tsx:21-32 | at boot a stored array is the initial layout; an absent, empty, malformed or non-array value gives the default layout |
| `Persistence.BootAfterSave` | nocode-dashboard/src/App.tsx:21-44 | a boot after a successful save starts from the saved layout |
| `LayoutStore.FindById` | nocode-dashboard/src/App.tsx:73 | the lookup finds the first widget with the id (none before it has the id), and nothing exactly when no widget has it |
| `LayoutStore.Retitled` | nocode-dashboard/src/App.tsx:78 | the retitling `map`: same length, ids and kinds at every position; characterised further by `RetitledIsLocal`, `RetitledUnknownId` and `RetitledThenFound` |
| `LayoutStore.RetitledIsLocal` | nocode-dashboard/src/App.tsx:78 | retitling keeps length, order, ids and kinds; widgets with the id get the new title and all others are unchanged |
| `LayoutStore.RetitledUnknownId` | nocode-dashboard/src/App.tsx:78 | retitling with an id no widget has leaves the list unchanged |
| `LayoutStore.RetitledThenFound` | nocode-dashboard/src/App.tsx:73-78 | after retitling, looking the id up finds a widget with the new title |
| `LayoutStore.RetitledKeepsUniqueIds` | nocode-dashboard/src/App.tsx:78 | retitling preserves uniqueness of ids |
| `DragCoordinator.IsReorder` | nocode-dashboard/src/App.tsx:88 | the reorder branch test: a drop from `dashboard-area` onto `dashboard-area`, which always has a destination |
| `DragCoordinator.IsInsert` | nocode-dashboard/src/App.tsx:93 | the insert branch test: a drop from `sidebar-widgets` onto `dashboard-area`, never also a reorder |
| `DragCoordinator.AfterDrop` | nocode-dashboard/src/App.tsx:84-101 | the layout after `onDragEnd`: unchanged without a destination, and otherwise the same length or, for an insert, one longer; characterised by `NoOpDrops`, `ReorderShape`, `ReorderInPlace`, `InsertShape` and `DropKeepsUniqueIds` |
| `DragCoordinator.NewWidget` | nocode-dashboard/src/App.tsx:96 | a created widget has the generated id, the entry's id as kind and its name as title |
| `DragCoordinator.NoOpDrops` | nocode-dashboard/src/App.tsx:86-100 | no destination, an unsupported pair of droppables, or a sidebar drop of an id missing from the catalog leaves the layout identical |
| `DragCoordinator.UnknownTypeIsNoOp` | nocode-dashboard/src/App.tsx:94-95 | a sidebar drop of any id other than text, chart, image changes nothing |
| `DragCoordinator.ReorderShape` | nocode-dashboard/src/App.tsx:88-92 | a dashboard-to-dashboard drop keeps length and multiset, lands the dragged widget at the clamped destination, and keeps the others in order |
| `DragCoordinator.ReorderInPlace` | nocode-dashboard/src/App.tsx:89-91 | a drop at the source index returns the original list |
| `DragCoordinator.InsertShape` | nocode-dashboard/src/App.tsx:93-99 | a sidebar-to-dashboard drop of a catalog id adds one widget at the clamped destination with that type's id and name, keeping all old widgets in order |
| `DragCoordinator.RemovedKeepsUniqueIds` | nocode-dashboard/src/App.tsx:90 | taking a widget out keeps ids unique, and the taken id no longer occurs |
| `DragCoordinator.InsertedKeepsUniqueIds` | nocode-dashboard/src/App.tsx:91 | inserting a widget with an unused id keeps ids unique |
| `DragCoordinator.DropKeepsUniqueIds` | nocode-dashboard/src/App.tsx:84-101 | every drop keeps ids unique when the generated id is unused |
| `Dashboard.App.constructor` | nocode-dashboard/src/App.tsx:21-33 | the initial layout is the boot initialiser's result and no widget is being edited |
| `Dashboard.App.SaveDashboard` | nocode-dashboard/src/App.tsx:42-50 | a successful write stores the current layout under the fixed key with "Dashboard saved!", so a read returns that layout; a failed write changes no storage and reports "Failed to save dashboard." |
| `Dashboard.App.LoadDashboard` | nocode-dashboard/src/App.tsx:52-70 | a stored array replaces the layout; in every other case the layout is unchanged; the returned message is the one for the outcome |
| `Dashboard.App.EditWidget` | nocode-dashboard/src/App.tsx:72-75 | the dialog opens on the first widget with the id; on a miss the editing state is unchanged |
| `Dashboard.App.SaveTitle` | nocode-dashboard/src/App.tsx:77-80 | the layout becomes the retitled layout and the dialog closes |
| `Dashboard.App.CancelEdit` | nocode-dashboard/src/App.tsx:82 | the dialog closes and the layout is untouched |
| `Dashboard.App.OnDragEnd` | nocode-dashboard/src/App.tsx:84-101 | the layout after the handler is `AfterDrop` of the old layout, the event and the generated id |
| `Dashboard.SaveDragLoad` | nocode-dashboard/src/App.tsx:42-70 | save, then any drag, then load restores the saved layout and reports "Dashboard loaded!" |
| `EditWidgetModal.TitleFor` | nocode-dashboard/src/components/EditWidgetModal.tsx:26-32 | the reset title is the widget's title, or empty when there is no widget |
| `EditWidgetModal.SaveCalls` | nocode-dashboard/src/components/EditWidgetModal.tsx:34-38 | at most one call; none exactly when there is no widget or the title is all white space; otherwise `onSave(widget.id, trim(title))` with a non-empty title that has no white space at its ends |
| `EditWidgetModal.BlankTitleNeverSaves` | nocode-dashboard/src/components/EditWidgetModal.tsx:35 | an empty or white-space-only title never calls `onSave` |
| `EditWidgetModal.SavedTitleIsStable` | nocode-dashboard/src/components/EditWidgetModal.tsx:35-36 | saving the forwarded title again forwards the same title |
| `EditWidgetModal.Modal.constructor` | nocode-dashboard/src/components/EditWidgetModal.tsx:24-32 | after mounting and the first effect, the title is the widget's title (or empty) |
| `EditWidgetModal.Modal.WidgetChanged` | nocode-dashboard/src/components/EditWidgetModal.tsx:26-32 | a new `widget` prop resets the title to its title, or to empty when it is null |
| `EditWidgetModal.Modal.Change` | nocode-dashboard/src/components/EditWidgetModal.tsx:56 | typing replaces the title and nothing else |
| `EditWidgetModal.Modal.HandleSave` | nocode-dashboard/src/components/EditWidgetModal.tsx:34-38 | the Save button makes exactly the calls of the save rule |
| `EditWidgetModal.Modal.KeyPress` | nocode-dashboard/src/components/EditWidgetModal.tsx:57-61 | Enter applies the save rule; any other key makes no call |
| `EditWidgetModal.Modal.HandleClose` | nocode-dashboard/src/components/EditWidgetModal.tsx:40-42 | closing calls `onClose` exactly once and never `onSave` |

## Left out

- Rendering, styling, the responsive drawer (`mobileOpen`, `useMediaQuery`) and the Toolbar, Sidebar, Dashboard and Widget components are presentation only.
- The drag library is not modelled; its `DropResult` is an input value.
- Dashboard.App.OnDragEnd: requires that a reorder's source index lies inside the list. The drag library always reports such an index. In JavaScript an index past the end would splice `undefined` into the list, and the model does not represent that.
- Negative drag indices (which `splice` counts from the end) are excluded by typing the indices as `nat`; the drag library never reports them.
- `uuidv4()` is not modelled. The generated ids are parameters (`freshId`, `welcomeId`). Uniqueness of ids is proved only when the caller supplies an unused id, because the code does no collision check.
- `JSON.stringify`/`JSON.parse` are abstracted to the tagged `StoredValue`. A stored array is taken to hold widget records; the code accepts any array elements unchecked.
- Exceptions thrown by `localStorage.getItem` are not modelled. A throwing `setItem` is the `written = false` parameter of the save.
- `alert` becomes a returned message string. The `console.error` calls on parse and save failures are dropped.
- The dialog's `open` prop, its rendering, and the one render in which the title is still '' before the reset effect runs are not modelled beyond the constructor.
- `JsText.IsWhitespace` is a fixed character set, the one ECMAScript defines at the time of writing. UTF-16 surrogate pairs are not distinguished from characters, which does not matter here because every white-space character lies in the Basic Multilingual Plane.
