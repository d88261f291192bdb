# IFC viewer bookkeeping, modelled in Dafny

IFC-Viewer-Lit is a browser viewer for IFC building models. It annotates model elements with
todos, places markers on them and measures them, and keeps projects and their IFC files.
Most of it is glue between the page and the BIM libraries. This project models the
bookkeeping under that glue:

- the todo card: the create checks, the id union, the highlight test, the list query and the
  filter state (`TodoCard`);
- the two marker tools: the position map with occurrence counts of the second viewer
  (`MarkerBoard`, over the marker component `MarkerLayer`), and the clear-then-place action of
  the first (`PlaceMarker`);
- the per-model classification cache of the first viewer, filled on load, swapped in on
  highlight and dropped on dispose with the model's meshes (`ClassificationCache`, `Meshes`);
- the IFC-id to model-uuid bindings of the project information panel (`ProjectInformation`);
- the measurement tools' enable flags, saved lists and key handler (`Measurement`), and the
  panel resize state machine (`PanelResizer`);
- the project list's search and append loops (`ProjectsManager`), the in-memory todo list of
  the second viewer's IFC page (`IfcPage`), the path routing of its root element (`Routing`),
  and the tile grouping, model naming and save-or-load decisions of the import toolbar
  (`TileImport`).

Library calls, server requests, dialogs and geometry are parameters of the model. A server
reply is an input value. A user's answer to a dialog is a boolean. The bounding sphere of a
selection is a function from the selection to an optional centre. JavaScript `Set`s, which
keep insertion order, are sequences without duplicates (`Seqs.NoDups`, `Seqs.Dedup`).
Objects that the handlers update in place are classes whose methods state the whole new
state.

## Model

| member | source | states |
|---|---|---|
| TodoCard.FlattenIds | src/components/classes/TodoCard.ts:289-304 | an id is in the flattened set iff some stored entry holds it, as a bare number or inside a nested array |
| TodoCard.IsHighlighted | src/components/classes/TodoCard.ts:471-484 | a card is highlighted iff something is selected and one of its stored ids is among the ids of the first selected fragment key |
| TodoCard.AllIds | src/components/classes/TodoCard.ts:76-79 | an id is listed iff some selected key's value holds it |
| TodoCard.SelectionUnion | src/components/classes/TodoCard.ts:76-82 | the stored ids have no duplicates and are exactly the ids of all selected fragments |
| TodoCard.ValidateCreate | src/components/classes/TodoCard.ts:69-188 | no request without a selected key; none unless some key is known and maps to a Set; a request is made iff the model uuid resolves to a non-zero IFC id and the trimmed description, deadline and manager are non-empty; the request carries the form values, the manager as `parseInt` of the dropdown text (`None`, sent as `null`, for `NaN`), priority "LOW" for an empty dropdown, and the id union |
| TodoCard.CreateSendsManagerId | src/components/classes/TodoCard.ts:158 | a dropdown whose value is the text of a manager id sends that id |
| Numbers.ReadMagnitude | src/components/classes/TodoCard.ts:158 | after the sign, no text and text not starting with a decimal digit read as `NaN`, whatever the radix |
| Numbers.ParseInt | src/components/classes/TodoCard.ts:158 | `parseInt` (with or without radix 10) of blank text, or of text whose first non-blank character is neither a digit nor a sign, is `NaN` |
| Numbers.ReadMagnitudeText | src/components/classes/TodoCard.ts:158 | the decimal text of a natural number, followed by a non-digit (other than `x` when no radix is given), reads back as that number |
| Numbers.ParseIntText | src/components/classes/TodoCard.ts:158 | `parseInt` reads back the text of every integer, whatever non-digit follows (other than `x` when no radix is given) |
| Numbers.ParseIntLeadingSpace | src/components/classes/TodoCard.ts:158 | leading white space does not change what `parseInt` reads |
| Numbers.BlankParsesToNaN | src/components/classes/TodoCard.ts:637 | white space alone, or nothing, parses to `NaN` |
| Numbers.ParseIntRadixAgree | src/components/classes/TodoCard.ts:637 | `parseInt(s)` and `parseInt(s, 10)` agree unless the digits start with `0x` |
| Numbers.HexPrefixNeedsNoRadix | src/components/classes/TodoCard.ts:637 | `parseInt("0x1A")` is 26 while `parseInt("0x1A", 10)` is 0 |
| TodoCard.PriorityFilterEmpty | src/components/classes/TodoCard.ts:215 | the comma-joined priority text is empty iff no priority is checked |
| TodoCard.PriorityFilterRoundTrip | src/components/classes/TodoCard.ts:215 | splitting the filter text at commas gives back the checked priorities' names in checking order |
| TodoCard.BuildListQuery | src/components/classes/TodoCard.ts:231-258 | `sortBy` is always sent, first, with the sort key; `filter` is sent iff the filter text is non-empty and carries it; `manager` is sent iff the manager filter is defined (0 and `NaN` included) and carries it |
| TodoCard.NumberValue | src/components/classes/TodoCard.ts:244-246 | a number is sent as itself and `NaN` as `NaN` |
| TodoCard.TodoPanel.constructor | src/components/classes/TodoCard.ts:33-36 | the panel starts sorted by deadline, with no priority checked, manager filter 0 and IFC id 0 |
| TodoCard.TodoPanel.TogglePriority | src/components/classes/TodoCard.ts:598-610 | checking adds the priority once, at the end; unchecking removes it; the set stays duplicate-free |
| TodoCard.TodoPanel.SelectManager | src/components/classes/TodoCard.ts:632-640 | the manager filter becomes `parseInt(value, 10)` of the chosen option: an id's text gives that id, a blank value `NaN` |
| TodoCard.TodoPanel.SelectSortKey | src/components/classes/TodoCard.ts:650-656 | the sort key becomes the clicked one |
| TodoCard.TodoPanel.OnHighlight | src/components/classes/TodoCard.ts:39-66 | an invalid first fragment changes nothing; an unbound model sets the current id to 0 without a refresh; otherwise the current id becomes the model's IFC id and the list is refreshed for it |
| TodoCard.TodoPanel.RefreshFor | src/components/classes/TodoCard.ts:191-258 | nothing follows iff the expressIDs request fails; after a good reply, markers use the given id, the list query the current id; `sortBy` carries the current sort key; `filter` is sent iff a priority is checked, and splits back into the checked priorities in order; `manager` is always sent, carrying the manager filter or `NaN`; highlighting uses the first selected key's ids |
| TodoCard.EditedTodo | src/components/classes/TodoCard.ts:395-409 | the edited record has the new content, priority and deadline and `parseInt(value, 10)` of the manager option, and restoring those four gives back the original |
| TodoCard.EditSavesManagerId | src/components/classes/TodoCard.ts:402-404 | saving with a manager option whose value is an id's text stores that id |
| MarkerLayer.Markers.constructor | src/ver2/main.ts:216 | no marker is live at the start |
| MarkerLayer.Markers.Create | src/ver2/main.ts:244 | a marker is added under a fresh id; the others stay |
| MarkerLayer.Markers.Delete | src/ver2/main.ts:250-252 | exactly that marker is removed |
| MarkerLayer.Markers.Clear | src/components/Toolbars/Sections/PlaceMarker.ts:6-13 | every live marker is deleted |
| MarkerBoard.PlaceAllCounts | src/ver2/main.ts:246-264 | after a run of placements, each key's count is its old count plus its number of placements, and a key has an entry iff it had one or was placed at |
| MarkerBoard.MarkerBoard.constructor | src/ver2/main.ts:216 | the position map starts empty |
| MarkerBoard.MarkerBoard.PlaceOnSelected | src/ver2/main.ts:219-271 | nothing changes without a selection, a known first fragment and a sphere; otherwise a rocket is drawn at the centre, a new key gets count 1 and no label, and a known key's count rises by one and its old label is replaced by one showing the new count; other keys keep their counts; every label stays live and shows its key's count |
| MarkerBoard.MarkerBoard.PlaceFirst | src/ver2/main.ts:263-264 | a first placement adds a rocket and an entry with count 1 and no label |
| MarkerBoard.MarkerBoard.PlaceAgain | src/ver2/main.ts:244-261 | a repeat placement adds a rocket, deletes the old label and draws one with the raised count |
| PlaceMarker.ItemIds | src/components/Toolbars/Sections/PlaceMarker.ts:30-49 | an item has ids iff its field is a non-empty string that parses to an array; the ids are its entries flattened one level, without duplicates |
| PlaceMarker.MarkersFromIds | src/components/Toolbars/Sections/PlaceMarker.ts:78-94 | the markers placed take consecutive ids, one per centre, in order |
| PlaceMarker.CentersCover | src/components/Toolbars/Sections/PlaceMarker.ts:78-94 | every id with vertices gets a marker at its centre |
| PlaceMarker.CentersSound | src/components/Toolbars/Sections/PlaceMarker.ts:78-94 | every marker's centre belongs to an id with vertices |
| PlaceMarker.NoGroupNoMarkers | src/components/Toolbars/Sections/PlaceMarker.ts:53-57 | nothing is placed when no fragments group is loaded |
| PlaceMarker.AllCentersCover | src/components/Toolbars/Sections/PlaceMarker.ts:26-98 | with a group loaded, every id with vertices of every readable item gets a marker, whatever the other items hold |
| PlaceMarker.AllCentersSound | src/components/Toolbars/Sections/PlaceMarker.ts:26-98 | every marker placed needs a loaded group and sits at the centre of an id of a readable item |
| PlaceMarker.PlaceItem | src/components/Toolbars/Sections/PlaceMarker.ts:78-94 | the loop over one item's ids creates one rocket per id with vertices, in id order |
| PlaceMarker.PlaceMarkers | src/components/Toolbars/Sections/PlaceMarker.ts:15-102 | after clearing, the live markers are exactly the rockets at all items' centres, item after item; the `alreadyProcessed` skip never fires |
| Measurement.DeletePicked | src/components/Toolbars/Sections/Measurement.ts:50-55 | with a picked measurement, exactly the picked one goes and the others stay in order; without one nothing changes |
| Measurement.KeyEffect | src/components/Toolbars/Sections/Measurement.ts:49-71 | with no tool on, nothing changes; O deletes the picked measurement from the edge tool, or from the face tool when edge is off; S saves the edge tool's list and empties it, or the face tool's when edge is off; L appends the edge tool's saved list when it is on and has one, else the face tool's; L with empty saved lists changes nothing; only S touches the saved lists; other keys do nothing |
| Measurement.SaveThenRestoreEdges | src/components/Toolbars/Sections/Measurement.ts:56-70 | S then L on the edge tool gives back its measurements and keeps them saved |
| Measurement.SaveThenRestoreFaces | src/components/Toolbars/Sections/Measurement.ts:56-70 | S then L on the face tool gives back its measurements and keeps them saved |
| Measurement.SaveEmptyThenRestore | src/components/Toolbars/Sections/Measurement.ts:56-70 | saving an empty edge tool empties the saved list, after which L restores nothing |
| Measurement.MeasurementTools.constructor | src/components/Toolbars/Sections/Measurement.ts:19-25 | every tool starts disabled, with no measurement and nothing saved |
| Measurement.MeasurementTools.Click | src/components/Toolbars/Sections/Measurement.ts:105-137 | a button toggles its own tool and turns the other two off, so at most one tool is ever on |
| Measurement.MeasurementTools.KeyDown | src/ver2/main.ts:446-473 | the key handler changes the tools' lists exactly as `KeyEffect` says: O deletes the picked measurement, S saves and clears, L restores |
| Measurement.MeasurementTools.DoubleClick | src/components/Toolbars/Sections/Measurement.ts:87-93 | the edge tool, else the face tool, gains the measurement under the mouse; with neither on nothing changes |
| Measurement.MeasurementTools.Highlight | src/components/Toolbars/Sections/Measurement.ts:74-79 | a volume is computed iff the volume tool is on |
| Measurement.MeasurementTools.SelectionCleared | src/components/Toolbars/Sections/Measurement.ts:81-85 | the volume tool is cleared iff it is on |
| Meshes.DisposeMeshes | src/ver2/main.ts:316-321 | exactly the meshes whose uuid is among the disposed fragment ids leave the world |
| ClassificationCache.GeneratedList | src/main.ts:152-168 | the generated list has `CustomSelections` and exactly the generated classification types besides |
| ClassificationCache.Classifications.constructor | src/main.ts:133 | the cache starts empty |
| ClassificationCache.Classifications.OnFragmentsLoaded | src/main.ts:136-198 | the model's meshes join the world; with properties the model's classification is cached under its uuid; the old list comes back when its `CustomSelections` is missing or non-empty, and then there is no second indexer pass and no hider refresh |
| ClassificationCache.Classifications.OnHighlight | src/main.ts:200-244 | no change without a model uuid or when the JSON text of its cached classification already is the list's (express ids do not show in that text); otherwise the list becomes a copy of the group's cached classification (empty when there is none), keeping `CustomSelections` when the model is cached, and the hider is refreshed |
| ClassificationCache.Classifications.OnFragmentsDisposed | src/main.ts:246-274 | the entry keyed by `groupID` goes and the rest stay; an unknown id changes neither the cache nor the list; the list is reset iff its JSON text equals the removed entry's; exactly the disposed meshes go |
| ClassificationCache.SameTextIgnoresIds | src/main.ts:215 | the JSON comparison (here and in the dispose handler) finds two classifications equal that differ only in a fragment's express ids, since a `Set` prints as `{}` |
| ClassificationCache.Classifications.FindModelId | src/main.ts:248-256 | the key search finds a key iff `groupID` is a key of the cache |
| ClassificationCache.CopyGroups | src/main.ts:221-240 | the nested copy loops rebuild a classification equal to the cached one |
| ProjectInformation.FirstWorldWith | src/components/Panels/ProjectInformation.ts:81-90 | the result is the first world whose scene holds the uuid; None iff no world holds it |
| ProjectInformation.ProjectInformation.constructor | src/components/Panels/ProjectInformation.ts:17 | no model is bound at the start |
| ProjectInformation.ProjectInformation.LoadIFCModel | src/components/Panels/ProjectInformation.ts:33-53 | a found project binds the IFC id to the model uuid in both maps, replacing an older binding, and adds the model to the first world; with no project nothing changes |
| ProjectInformation.ProjectInformation.DeleteIFCModel | src/components/Panels/ProjectInformation.ts:56-96 | declining or a failed request changes nothing; otherwise, whatever the server answered, the first world holding the bound uuid loses it and the id is unbound from both maps; the file list is reloaded iff the server succeeded |
| ProjectsManager.Matching | src/components/classes/ProjectsManager.ts:74-80 | a project is returned iff it is in the list and its lower-cased name contains the lower-cased query; the result keeps list order |
| ProjectsManager.MatchingEmptyQuery | src/components/classes/ProjectsManager.ts:76-78 | an empty query returns the whole list |
| ProjectsManager.MatchingAppend | src/components/classes/ProjectsManager.ts:74-86 | a project appended to the list comes last in a search it matches, and the earlier results stay |
| ProjectsManager.RowProjects | src/components/classes/ProjectsManager.ts:46-64 | one project per row, in row order, carrying the row's name |
| ProjectsManager.ProjectsManager.constructor | src/components/classes/ProjectsManager.ts:28-35 | the list starts empty (the constructor's own `loadProjects` call is `LoadProjects`) |
| ProjectsManager.ProjectsManager.FilterProjects | src/components/classes/ProjectsManager.ts:74-80 | the projects matching the query, in list order; the list is only read |
| ProjectsManager.ProjectsManager.NewProject | src/components/classes/ProjectsManager.ts:82-86 | the project is appended and returned |
| ProjectsManager.ProjectsManager.LoadProjects | src/components/classes/ProjectsManager.ts:37-72 | on success one project per row is appended in row order and the update callback fires; on failure nothing changes |
| ProjectsManager.ProjectsManager.ImportFromJSON | src/components/classes/ProjectsManager.ts:116-139 | every parsed project is appended in file order; no file, an empty file, or a text that does not parse changes nothing |
| IfcPage.WithoutDescription | src/ver2/IFCPage.ts:250-252 | the survivors are exactly the todos with another description, in list order |
| IfcPage.WithoutAbsentDescription | src/ver2/IFCPage.ts:250-252 | deleting a description no todo has changes nothing |
| IfcPage.WithoutDescriptionIdempotent | src/ver2/IFCPage.ts:250-252 | deleting a description twice is deleting it once |
| IfcPage.WithoutDescriptionAppend | src/ver2/IFCPage.ts:250-252 | the filter works todo by todo: an appended todo survives iff its description differs, at the end |
| IfcPage.IfcPage.constructor | src/ver2/IFCPage.ts:29-34 | the page starts with no components, no todos and empty inputs |
| IfcPage.IfcPage.AddTodo | src/ver2/IFCPage.ts:216-219 | the todo is appended; earlier entries stay |
| IfcPage.IfcPage.CreateTodo | src/ver2/IFCPage.ts:221-246 | a todo is created iff components are present and both description and priority are set; it carries them, the selection and the time; otherwise the list is unchanged and the outcome names the failed check |
| IfcPage.IfcPage.DeleteTodo | src/ver2/IFCPage.ts:248-253 | a confirmed delete removes every todo with that description; a declined one changes nothing |
| IfcPage.IfcPage.CreateLeftPanel | src/ver2/IFCPage.ts:311-321 | the loading placeholder iff components are absent or not ready; the tabs iff they are ready and the hider could be built |
| Routing.Route | src/ver2/index.ts:102-119 | loading without a projects manager; the projects page for exactly `/`; for a path starting with `/project/`, the IFC page with the text between the first and second `/project/`; otherwise not found |
| Routing.ProjectPath | src/ver2/ProjectsPage.ts:365-367 | the path is `/project/` followed by the id |
| Routing.RouteProjectPath | src/ver2/ProjectsPage.ts:365-367 | the path built for an id without `/project/` in it routes back to that id's IFC page |
| Routing.RouteBarePrefix | src/ver2/index.ts:111-114 | `/project/` alone opens the IFC page with an empty id |
| Routing.AppRoot.constructor | src/ver2/index.ts:82-83 | the root starts at the window's path, without a projects manager |
| Routing.AppRoot.ConnectedCallback | src/ver2/index.ts:86-90 | the projects manager exists once the element is connected |
| Routing.AppRoot.HandleRouting | src/ver2/index.ts:97-100 | the current path becomes the window's path |
| TileImport.GroupKeyOfGeometry | src/components/Toolbars/Sections/Import.ts:224-227 | a geometry file `stem-processed.json` is grouped under `stem` |
| TileImport.GroupKeyOfProperties | src/components/Toolbars/Sections/Import.ts:224-227 | a properties file `stem-processed-properties.json` is grouped under the same `stem` |
| TileImport.KeysOf | src/components/Toolbars/Sections/Import.ts:224-227 | one group key per file, in file order |
| TileImport.LastWith | src/components/Toolbars/Sections/Import.ts:228-235 | the file found is one of the chosen files, of that group and that role |
| TileImport.GroupedHas | src/components/Toolbars/Sections/Import.ts:222-236 | a group exists iff some file has its key |
| TileImport.GroupedPair | src/components/Toolbars/Sections/Import.ts:228-235 | a group's geometry is its last geometry file (the placeholder if none) and its properties its last properties file |
| TileImport.NoLastWith | src/components/Toolbars/Sections/Import.ts:228-235 | a key no file has has no file of any role |
| TileImport.GroupedKeys | src/components/Toolbars/Sections/Import.ts:222-242 | the groups are exactly the distinct file keys |
| TileImport.PairsOf | src/components/Toolbars/Sections/Import.ts:238-242 | one pair per distinct group key |
| TileImport.PlaceCases | src/components/Toolbars/Sections/Import.ts:228-235 | a geometry name sets the geometry, else a properties name sets the properties, else the group is only made |
| TileImport.GroupStep | src/components/Toolbars/Sections/Import.ts:222-236 | one more file places itself in its group, and its key joins the list iff its group is new |
| TileImport.AddFile | src/components/Toolbars/Sections/Import.ts:224-235 | the loop body places the file and records a new key |
| TileImport.GroupFiles | src/components/Toolbars/Sections/Import.ts:222-236 | the first loop yields the grouping and the distinct keys in first-seen order |
| TileImport.LoadTiles | src/components/Toolbars/Sections/Import.ts:215-260 | no file list gives no pair and loads nothing; otherwise one pair per group, in the order the groups were made, and the loader gets the longest prefix of those pairs whose texts parse |
| TileImport.CollectPairs | src/components/Toolbars/Sections/Import.ts:238-242 | the second loop collects every group's pair in key order |
| TileImport.LoadedPrefix | src/components/Toolbars/Sections/Import.ts:244-256 | the pairs loaded are a prefix of the pairs, all of whose texts parse, ending just before the first pair with a text that does not |
| TileImport.LoadPairs | src/components/Toolbars/Sections/Import.ts:244-256 | the third loop hands the loader exactly the pairs up to the first one whose text fails to parse |
| TileImport.PlaceholderStopsLoading | src/components/Toolbars/Sections/Import.ts:229-256 | a group without a geometry file keeps the empty placeholder, whose `JSON.parse` throws, so loading stops right before it and no loaded pair holds the placeholder |
| TileImport.AllReadableAllLoaded | src/components/Toolbars/Sections/Import.ts:244-256 | when every text parses, every pair is loaded |
| TileImport.ModelNameOfIfcFile | src/components/Toolbars/Sections/Import.ts:289 | `stem.ifc` is named `stem` when the stem has no `.ifc` |
| TileImport.ModelNameWithoutSuffix | src/components/Toolbars/Sections/Import.ts:289 | a name without `.ifc` is its own model name |
| TileImport.LoadFragments | src/components/Toolbars/Sections/Import.ts:169-210 | nothing without a zip; nothing loaded once saving is agreed and the dialog is up; a zip without geometry is refused; a zip whose properties or relations text does not parse throws before loading; the zip is loaded, with its geometry, properties and relations, exactly when none of these applies |
| TileImport.StreamIfc | src/components/Toolbars/Sections/Import.ts:272-293 | nothing without a file; nothing loaded once saving is agreed and the dialog is up; otherwise the file is loaded under its model name |
| TileImport.ExportFragments | src/components/Toolbars/Sections/Import.ts:295-307 | no download iff there is no group; otherwise `exported_fragment.frag` first, then `exported_properties.json` iff the first group has properties, and nothing else |
| PanelResizer.DraggedWidth | src/components/Panels/PanelResizer.ts:17-22 | a width is proposed iff `initialWidth + (x - initialX)` is strictly between 0 and two thirds of the app width, and it moves by exactly the mouse's travel |
| PanelResizer.DragBackToStart | src/components/Panels/PanelResizer.ts:17-22 | moving back to the drag's start proposes the starting width |
| PanelResizer.CursorAt | src/components/Panels/PanelResizer.ts:45-48 | the cursor is `col-resize` iff the mouse is right of the panel edge minus 15 |
| PanelResizer.Resizer.constructor | src/components/Panels/PanelResizer.ts:8-10 | no drag is under way at the start |
| PanelResizer.Resizer.MouseDown | src/components/Panels/PanelResizer.ts:33-43 | a press in the handle starts a drag from the mouse and the panel's width; elsewhere nothing changes |
| PanelResizer.Resizer.MouseMove | src/components/Panels/PanelResizer.ts:13-23 | while dragging, the width becomes the proposed width when there is one; otherwise it stays |
| PanelResizer.Resizer.MouseUp | src/components/Panels/PanelResizer.ts:25-31 | a release ends the drag and detaches the window listeners |
| PanelResizer.Resizer.HoverMove | src/components/Panels/PanelResizer.ts:45-51 | the cursor shows whether the mouse is in the handle |
| PanelResizer.Resizer.MouseLeave | src/components/Panels/PanelResizer.ts:52-56 | leaving resets the cursor unless a drag is under way |
| Seqs.Dedup | src/components/classes/TodoCard.ts:80 | `new Set` keeps the first occurrence of each element, in order, and loses none |
| Seqs.DedupSnoc | src/components/classes/TodoCard.ts:80 | adding an element to a `Set` leaves it unchanged when the element is there, and otherwise appends it at the end |
| Seqs.DedupIdempotent | src/components/classes/TodoCard.ts:80 | a `Set` built from a `Set` is the same `Set` |

## Left out

- Every `fetch`, `FileReader`, `confirm`, `alert` and DOM query. Server replies, parsed files and user answers are parameters. The server's sorting of todos is not modelled; the client only sends the key.
- The BIM libraries and three.js: scene, renderer, camera, culler, loaders, the classifier's passes (the `generated` parameter), the relations indexer and the hider are counted calls or parameters. `Camera.ts`, `ClipEdges.ts`, `Hider.ts`, `IFCViewer.ts`, the pure UI components and `app.ts` (all commented out) are not part of this model.
- Floating point: the label offset of 0.1, the two-thirds width bound and the box centres use exact reals. The `toFixed(2)` position key is the `keyOf` parameter. The camera stored with a todo is a field that no property mentions.
- `JSON.parse` is the `Parsed` datatype, and in `loadTiles` and `loadFragments` which texts it accepts is the `isJson` parameter; the parsed tile data itself is not modelled. `JSON.stringify` equality of classifications is equality of their JSON text (`ClassificationCache.Text`), in which a fragment's `Set` of express ids prints as `{}`; the order in which keys are written is ignored.
- `toLowerCase` is modelled for ASCII letters only. `trim` (and the white space `parseInt` skips) covers a subset of the characters JavaScript removes: the Unicode space separators U+1680, U+2000 to U+200A, U+202F, U+205F and U+3000 are not white space in the model.
- Numbers.ParseInt: the rounding of values beyond 2^53 to the nearest double is not modelled; the model reads the exact integer.
- `for..in` over the `grouped` record of `loadTiles` visits integer-like keys first in JavaScript. The model visits keys in insertion order.
- `grouped` in `loadTiles` is a plain object, so a file whose group key is an inherited property name such as `constructor` or `toString` finds that truthy property at src/components/Toolbars/Sections/Import.ts:228, gets no group of its own and never reaches the pairs (`for..in` skips inherited properties). The model gives such a file its own group like any other key.
- Async interleaving. Each handler runs to completion, and unawaited refreshes are not modelled.
- The identity lookups (`getIfcIdByModelUUID`, `addModelUUID`, `getModelUUID`, `removeModelUUID`) are not part of the projects manager source. They are the `ifcOf` map and the `registry` field. A one-to-one registry is not what the code does: a second load of an id just overwrites its binding, and the model keeps that.
- src/components/classes/TodoCard.ts:71 queries an invalid selector, so in a browser the create handler throws there. The model takes the form inputs as parameters.
- src/main.ts:331 calls the measurement setup without the viewport that its double-click handler uses. The model takes the double-click as given.
- src/ver2/IFCPage.ts:386-388 offers a "Normal" priority that the todo priority type does not have. The page's priority is a plain string, as in the code.
- The rewrite loop at src/main.ts:174-184 writes each value back onto the key it came from, so it changes nothing and is not modelled.
- The shallow copies (`{...classifier.list}`) share their group objects with the classifier. Aliasing between the cache and the list is not modelled.
- Measurement tools: the libraries' own `create`, `delete`, `deleteAll`, `get` (a copy of the list) and `set` (the saved measurements are created again, on top of the tool's list) are modelled as list operations on what the model holds. The measurement under the mouse is an index parameter. The button labels that `updateButtons` redraws are not modelled.
- MarkerLayer.Markers.Clear: deletes markers in an unspecified order. The component's own iteration order is not modelled.
- PlaceMarker.PlaceMarkers: the `try/catch` around each item is modelled only through the skipped cases (missing, non-text, empty, unparsable or non-array ids). Missing or empty vertices (`centerOf` returning `None`) skip only that id, as at src/components/Toolbars/Sections/PlaceMarker.ts:80-83. A throw from `getItemVertices` (line 79) or from the marker component's `create` (line 89) is caught at line 96 and abandons the item's remaining ids; such throws are not modelled.
- The marker component's `threshold` setting and the nesting that `getObjectByProperty` searches in a scene are not modelled. A world's scene is the set of uuids it holds.
- ProjectsManager.ProjectsManager.ImportFromJSON: a file holding a top-level JSON string is walked one character at a time by the `for..of`, and each character is appended as a project; the model's parsed file is a list of projects or nothing, so this case is not modelled.
- TodoCard.TodoPanel.RefreshFor: a missing `#todos` container (a DOM query) ends the refresh after the markers are placed and before the list is fetched; the model assumes the container is there.
- TodoCard's `deleteTodo` is a server request followed by a refresh, with no state of its own. It is not modelled.
- Routing.AppRoot.Render: it has no contract of its own; `Routing.Route` states the view.
- `saveToDB` (src/components/Toolbars/Sections/Import.ts:43-154) is not modelled beyond its answer, the `saved` parameter of `TileImport.LoadFragments` and `TileImport.StreamIfc` (`TileImport.LoadsLocally`). It answers true as soon as its dialog is on screen and false only when building the dialog fails (the managers request); the upload after the user confirms is a server request.
- src/ver2/IFCPage.ts:239 stores the highlighter's live `selection.select` object in the todo, so a later selection change shows through every stored todo. The model stores the selection's value at creation; this aliasing is not modelled.
