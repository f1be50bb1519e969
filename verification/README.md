# Open Meshed Anatomy viewer core, in Dafny

This project models the core of the Open Meshed Anatomy viewer. The viewer shows a labelled head mesh. A user ticks anatomical labels from a colour table, and the viewer extracts one sub-mesh per label. It can also colour, dim and restyle the displayed items.

The modules are:

- `Meshes`: a mesh as a cell count plus named per-cell integer arrays. It also holds the selection that keeps the cells whose `AtlasLabels` value matches a query.
- `Palettes`: the two categorical colour tables (atlas and material). Each is an ordered list of `(id, rgb)` points folded into a map, in which a later point with the same id wins.
- `Appearance`: an item's actor property (representation, point size, edges, opacity) and its mapper and lookup table. It covers the representation table, the opacity clamp and the six colour presets.
- `Visualization`: class `VtkViewer`. It holds the scene registry (a map from name to item), the list of scalar bars (legends), and the operations `add`, `get`, `remove`, `remove_all`, `set_representation`, `get_representation`, `extract_selection`, `set_opacity`, `add_scalar_bar`, `color_by_array` and `use_preset`.
- `LabelTable`: `parse_file`. It covers Python's `str.split()` and `int()` on each line of a colour-table file.
- `Core`: class `TrameApp`. It holds the shared UI state and the handlers the UI triggers, written as explicit calls into the viewer. Redraw requests are counted in `viewUpdates`:
  - the opacity handler asks for one only when `set_opacity` reports a change;
  - `query_selection` asks for one, plus the one its dimming asks for when the opacity changes;
  - every other handler that finishes asks for one.

  A handler whose viewer call raises an exception stops at that point.

Python exceptions are modelled as error values:

- `ViewerError`, `LineError` and `ParseError` name each way the code raises.
- `Outcome` and `Result` carry those errors back to the caller.

Two facts about the controller and the viewer shape the model:

- `query_selection` dims and extracts from the active item. The dimming sets `mesh_opacity`, which the opacity handler applies to `active_actor` (oma/app/core.py:96-108). The extraction calls `GetOutput` on the item's source, so the active item must be the root reader (oma/app/visualization.py:204).
- `set_opacity` returns 0 and changes nothing for an absent name (oma/app/visualization.py:234-241).

The model also makes two facts explicit:

- A continuous preset fails once an item holds a categorical transfer function. That table has no `SetHueRange`.
- A new mapper shows scalars (VTK's default), coloured through a fresh `vtkLookupTable` with VTK's default ranges.

## Model

| member | source | states |
|---|---|---|
| Palettes.Fold | oma/app/visualization.py:255-260 | the table built from a point list has exactly the ids of its points as keys |
| Palettes.FoldLastWins | oma/app/visualization.py:260-262 | an id maps to the colour of its last point: a later AddRGBPoint for the same id replaces the earlier one |
| Palettes.AtlasLayout | oma/app/visualization.py:260-500 | the atlas point list has 240 points; after the first (id 1, green), point k carries id k |
| Palettes.AtlasTableFacts | oma/app/visualization.py:250-507 | the atlas table holds exactly ids 1..239, each mapped to its point's colour; id 1 is the later pink (1.0, 0.752941, 0.796078), not the earlier green; id 5 is (0.345098, 0.415686, 0.843137); every id lies below the table's number of values, 241 |
| Palettes.MaterialTableFacts | oma/app/visualization.py:509-542 | the material table holds exactly ids 1..7 (its number of values), id k mapped to the k-th point's colour |
| Meshes.Matches | oma/app/visualization.py:209-214 | the collected cell indices are strictly ascending, each points at a cell carrying the queried value, and every such cell is collected |
| Meshes.MatchCount | oma/app/visualization.py:212-214 | as many indices are collected as the value occurs in the label array |
| Meshes.ExtractExact | oma/app/visualization.py:216-230 | the extracted mesh is well formed and keeps every array; it holds exactly the cells whose label is the queried value, which is none when the value does not occur; each of its cells carries the values of the source cell it came from |
| Appearance.RepresentationTable | oma/app/visualization.py:172-196 | Points gives size 5, every other mode size 1; only SurfaceWithEdges shows edges and it reads back as Surface (2); opacity is kept; an unknown mode changes nothing |
| Appearance.LastRepresentationWins | oma/app/visualization.py:175-190 | each mode writes all three fields, so after two mode changes only the last one counts |
| Appearance.ClampOpacity | oma/app/visualization.py:239 | a stored opacity lies in [0, 1]: a value already in [0, 1] is stored unchanged, a value below 0 is stored as 0 and a value above 1 as 1 |
| Appearance.ColorByFacts | oma/app/visualization.py:544-553 | colouring by an array selects it, uses cell field data, shows scalars, pins a ramp's range to the array's range, and is idempotent |
| Appearance.PresetTable | oma/app/visualization.py:556-602 | each continuous preset leaves its row's hue, saturation and value ranges over the unchanged table range; Atlas binds the atlas table (id 1 resolving to pink); Material binds the material table and selects "MaterialLabels" |
| Appearance.PresetIdempotent | oma/app/visualization.py:556-602 | applying a preset a second time changes nothing further in the mapper |
| Appearance.CategoricalBlocksRamps | oma/app/visualization.py:558-560 | once a categorical preset is bound, every continuous preset fails, because the transfer function has no hue range to set |
| Visualization.NewItem | oma/app/visualization.py:133-151 | a new item carries its name and source, opacity 1 and surface representation |
| Visualization.PyIndex | oma/app/visualization.py:546 | a list index is valid exactly in [-n, n), and a negative index counts from the end |
| Visualization.OpacityReadBack | oma/app/visualization.py:232-241 | an opacity in [0, 1] reads back after it is set; setting it again changes nothing; no other item is touched |
| Visualization.Protected | oma/app/visualization.py:167-170 | the kept scene is the old scene restricted to the key "HeadMesh" |
| Visualization.AddTwiceRaises | oma/app/visualization.py:128-131 | with the code as written, adding a name a second time raises instead of returning None |
| Visualization.VtkViewer.constructor | oma/app/visualization.py:93-94 | the viewer starts with only the root item, filed under "HeadMesh" with the reader as its source, and no scalar bars |
| Visualization.VtkViewer.Add | oma/app/visualization.py:128-153 | a new name gains exactly one entry, the new item, and nothing else changes; a name already present gives None and no change |
| Visualization.VtkViewer.Get | oma/app/visualization.py:155-156 | lookup returns the item exactly when the name is present, and None otherwise |
| Visualization.VtkViewer.Remove | oma/app/visualization.py:161-165 | exactly the named key is deleted; an absent name changes nothing |
| Visualization.VtkViewer.RemoveAll | oma/app/visualization.py:167-170 | walking a snapshot of the names leaves exactly "HeadMesh" (when it was present), with its item unchanged |
| Visualization.VtkViewer.SetRepresentation | oma/app/visualization.py:172-190 | the named item's property takes its mode's row of the table; an absent name fails and changes nothing |
| Visualization.VtkViewer.GetRepresentation | oma/app/visualization.py:192-196 | a present item's representation reads back as 0, 1 or 2; an absent name fails |
| Visualization.VtkViewer.ExtractSelection | oma/app/visualization.py:198-230 | the index scan yields the extraction of the queried value from the reader's mesh; every extracted cell carries that value; it fails for an absent name, a derived item or a missing "AtlasLabels" array; the scene is left unchanged |
| Visualization.VtkViewer.SetOpacity | oma/app/visualization.py:232-241 | returns 1 exactly when the item is present and its opacity differs from the value (exact comparison), and then stores the value; otherwise it returns 0 and changes nothing |
| Visualization.VtkViewer.AddScalarBar | oma/app/visualization.py:243-248 | exactly one legend is appended, with no deduplication |
| Visualization.VtkViewer.ColorByArray | oma/app/visualization.py:544-553 | the item is coloured by the array at the index, with Python's negative indexing; an absent item or an index out of range fails and changes nothing |
| Visualization.VtkViewer.UsePreset | oma/app/visualization.py:556-602 | a valid preset rewrites the item's mapper and appends one legend titled with the item's name; an unknown preset value changes nothing; a continuous preset on a categorical table fails and changes nothing |
| LabelTable.Words | oma/app/core.py:71 | every field of a split line is non-empty and free of whitespace |
| LabelTable.WordsAreRuns | oma/app/core.py:71 | the fields of any line are exactly its maximal non-whitespace runs, in order: the line is the fields with whitespace gaps put back, every gap between two fields non-empty, leading and trailing gaps possibly empty |
| LabelTable.GapsSplit | oma/app/core.py:71 | the same decomposition with the gaps computed: a line is its leading gap, then each field followed by its gap |
| LabelTable.SplitJoin | oma/app/core.py:71 | splitting fields joined by spaces gives the fields back |
| LabelTable.ParseShow | oma/app/core.py:73-74 | `int(str(n)) == n` for every integer |
| LabelTable.ParseLineAccepts | oma/app/core.py:71-75 | a line is accepted exactly when it has at least five fields and fields 0, 2, 3 and 4 are integers; the record then holds value = field 0, title = field 1 and rgb = fields 2..4 |
| LabelTable.FormatParse | oma/app/core.py:71-75 | parsing the line written for a record gives back that record |
| LabelTable.ParseFile | oma/app/core.py:66-76 | succeeds exactly when every line parses, giving one record per line in order; otherwise it reports the first failing line, after which nothing is skipped or returned |
| Core.AddSelected | oma/app/core.py:105-107 | the query adds exactly one item per distinct title and keeps every item already present (with the corrected `add`, see Findings) |
| Core.FirstTitleWins | oma/app/core.py:105-107 | a title's item is the extraction of the first selected label carrying that title |
| Core.QuerySceneOutcome | oma/app/core.py:103-107 | a query succeeds exactly when nothing is selected or the active item is the root reader holding "AtlasLabels"; the scene then holds the root and one item per distinct title |
| Core.QuerySceneItems | oma/app/core.py:105-107 | after a successful query, the first label of each title owns that title's item, extracted from the root's mesh with that label's value |
| Core.TrameApp.constructor | oma/app/core.py:23-38 | initial state: active item "HeadMesh", representation 2, preset 0, colour array 0, opacity 1.0, no active or selected labels |
| Core.TrameApp.Launch | oma/app/core.py:23-38 | start-up succeeds exactly when every line of both label tables parses. It then holds their records line for line, with the full initial state: only the root item, no legends, active item "HeadMesh", representation 2, preset 0, colour array 0, opacity 1.0 and no selection. Otherwise it reports the first failing atlas line, or, when the atlas parses, the first failing material line |
| Core.TrameApp.ChangeMeshOpacity | oma/app/core.py:96-100 | the active item takes the opacity, and a redraw is requested exactly when set_opacity reports a change |
| Core.TrameApp.ChangeRepresentation | oma/app/core.py:85-88 | the active item takes the mode's row of the table and one redraw follows; an absent active item fails with no redraw |
| Core.TrameApp.ChangeActiveActor | oma/app/core.py:90-94 | the new active item's representation is read back into current_representation and one redraw follows; an absent name fails |
| Core.TrameApp.ChangeColorArray | oma/app/core.py:117-120 | the active item is coloured by the chosen array and one redraw follows, exactly when the item exists and the index is valid |
| Core.TrameApp.ChangeColorPreset | oma/app/core.py:122-125 | the call fails exactly when the active item is absent or a continuous preset meets a categorical table, and then changes nothing; otherwise one redraw follows, and a valid preset is applied with one legend while an unknown preset value changes nothing |
| Core.TrameApp.QuerySelection | oma/app/core.py:102-109 | the scene becomes the query's scene (with the corrected `add`, see Findings) with the active item dimmed to 0.05; one redraw follows, plus one more when the dimming changed the opacity; if an extraction fails, only the derived items have been removed, the opacity is unchanged and no redraw follows |
| Core.TrameApp.ClearSelection | oma/app/core.py:111-115 | only "HeadMesh" stays, the selection empties, and one redraw follows |
| Core.QueryThenClear | oma/app/core.py:102-115 | starting from the root alone, querying two distinct titles gives exactly three items; the first holds only cells of its value; the root is dimmed to 0.05; clearing leaves only the root, still at 0.05 |

## Left out

- Reading the VTK file and discovering its arrays and ranges (oma/app/visualization.py:58-82): the mesh and the array list are constructor inputs.
- Visualization.VtkViewer.constructor: requires at least one array. The source reads `dataset_arrays[0]` and would raise IndexError on a mesh without cell arrays.
- Renderer, window, interactor and camera setup. Adding and removing actors on the renderer is also left out. This is rendering only, with no effect on the modelled state.
- The geometry that `vtkExtractSelection` builds, and the extra arrays it attaches to its output. The extraction is modelled as slicing every cell array to the selected cells.
- The colours that `vtkLookupTable.Build()` and the transfer function's discretisation compute. This is floating-point interpolation inside VTK, so only the range constants and table entries are modelled.
- The range of a bound categorical transfer function. `color_by_array` on such a table is modelled as leaving the table unchanged.
- Aliasing between a legend and its lookup table. A scalar bar holds a snapshot of the table as it was when the bar was added, so later edits to the table are not reflected in the bar.
- `get_list` (oma/app/visualization.py:158-159): it only prints.
- Opening and reading the label files (oma/app/core.py:68-69): parsing works on the sequence of lines.
- Unicode digits other than ASCII '0'..'9' in `int()`: the model accepts ASCII digits only.
- The trame server, the UI layout (ui.py) and the reactive wiring. The handlers are explicit method calls, and each assignment is taken to fire its handler. Trame skips a handler when the new value equals the old one, and the handlers also fire once at start-up; neither is modelled.
- The hard-coded `state.dataset_arrays` list of choices shown in the UI (oma/app/core.py:53). The viewer uses its own array list.
- `SelectLabels` stands for the UI writing `selected_labels`; it has no counterpart in core.py.
- Core.AddSelected and Core.TrameApp.QuerySelection follow the corrected `add` of the Findings row. Take two selected labels with the same title. The code as written adds the first item, then raises at oma/app/visualization.py:130, so it neither dims nor redraws. The model keeps the first item, dims and redraws.

## Findings

| source | as written | input that shows it | evidently intended | confidence | as-written member | corrected member |
|---|---|---|---|---|---|---|
| oma/app/visualization.py:130 | `add` on a name already present formats its warning with `self.name`, which `VtkViewer` never sets, so it raises AttributeError | add "HeadMesh" a second time, or query two selected labels with the same title | print a warning and return None, leaving the scene unchanged | high, not executed | Visualization.AddTwiceRaises | Visualization.VtkViewer.Add |
