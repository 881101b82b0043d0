# RasCAL-2 GUI rules in Dafny

RasCAL-2 is the desktop GUI of RAT, the Reflectivity Algorithms Toolbox. It is
written in Python on PyQt6 and RATapi. This project models the rules inside the
GUI that work on plain data. Each rule is stated and proved:

- **The project editor.** It works on a draft project and checks the draft's
  layers, contrasts and contrast models before it is saved. It swaps contrast
  models when the layer model crosses the standard-layers boundary.
- **The class-list table and list models.** They cover column and header
  arithmetic, cell data, editing and item flags. They also cover parameter
  protection, the absorption and domain-ratio conversions, custom files, and
  the signal tables. The layer-name list with its add, delete and move
  operations is here too, along with the naming of new contrasts and imported
  datasets.
- **Settings.** A setting comes from an explicit value, else the global store,
  else its default. Names have the form `"group/key"`. The recent-projects list
  is kept here.
- **The typed-number input widgets.** This is the editor chosen for each field
  type, the spin-box bounds, and the decimals inferred from typed text.
- **The RAT runner.** It covers the queue the worker fills and the GUI drains.
- **The main window's model.** It covers creating, loading and updating a
  project, and loading a project is atomic.
- **The start-up dialogs and the new-project dialog.** These are the folder
  and name checks that gate creating and loading.
- **The controls panel.** It covers fit-settings validation bookkeeping and the
  Run/Stop gating.
- **The MATLAB helper and setup dialog.** The arch file is written as four
  lines and read back, and the local engine is cached.
- **The undoable controls edit.**

## How the system is modelled

There is one Dafny module per source file. Shared modules sit underneath them:

- `Wrappers`, for option and result types;
- `Text`, for Python string and `pathlib` helpers;
- `Sequences`, for Python list operations;
- `FieldNames`, `ProjectItems` and `Projects`, for the RATapi records the GUI
  edits.

Code that updates objects in place is modelled as a Dafny `class`. This covers
the table and list models, the settings object, the runner, the main-window
model, the dialogs, the widgets, the MATLAB helper and the undo command.

A RATapi `ClassList` is an object handed around by reference, and so is
`ClassListObject` here. The project editor's draft holds one such object per
class-list field, and the table and list models of its tabs are given those
same objects. An edit a model makes in edit mode is therefore an edit of the
draft: `ProjectWidget.Draft` reads the draft's values through the objects, and
`EntriesFollowList` states that a change to one object changes the draft at
that field only.

The postcondition of each method that models a source method gives the new
value of every field of the objects named in its `modifies` clause, including
the shared ClassList objects, in terms of the old values and specification
functions. Lemmas then prove what the source promises about those functions:
round trips, permutations, membership in both directions, order, and what is
left unchanged.

Some parts are modelled as inputs:

- Pydantic's validation of an assignment or an edit is a verdict passed to the
  model: accepted, or rejected with the error it raises.
- The file system is passed in as values: readable and writable paths, a
  directory listing, and file texts.
- Qt's `QSettings` store is a map.
- The presenter appears only as the list of calls made to it.

## Model

| member | source | states |
|---|---|---|
| DraftProject.CreateDraftProject | rascal2/widgets/project/project.py:613-623 | the draft has exactly one key per project field, each holding that field's value |
| DraftProject.DraftIsCopy | rascal2/widgets/project/project.py:613-623 | the draft's values are the project's own: making the draft copies and changes nothing |
| DraftProject.CreateDraft | rascal2/widgets/project/project.py:613-623 | each class list is copied into a new ClassList object, no object stands under two fields, every other value is taken as it is, and the draft's values equal the project |
| DraftProject.EntriesFollowList | rascal2/widgets/project/project.py:250-254 | when only the ClassList object under one field has changed (a tab's model edited it), the draft's values differ only at that field, which holds what the object holds now |
| DraftProject.SwapAll | rascal2/widgets/project/project.py:324-331 | the loop gives each contrast the model saved under its name and saves every current model under its name |
| DraftProject.SaveUntouchedDraft | rascal2/widgets/project/project.py:595-623 | writing an unedited draft back into any project gives the project the draft was made from |
| DraftProject.Render | rascal2/widgets/project/project.py:426-435 | as written: a message whose issue name has no brace is exactly its intended text, as is every message not built with `.format` (see also lines 468-472 and 487-491) |
| DraftProject.RenderNonEmpty | rascal2/widgets/project/project.py:430-434 | a message that does not raise has text |
| DraftProject.BraceFieldRaises | rascal2/widgets/project/project.py:430-434 | as written: a name holding a field of letters (`a{b}`, or `{}`) makes building an invalid-values message raise |
| DraftProject.StrayBraceRaises | rascal2/widgets/project/project.py:430-434 | as written: a name holding a single `}` (`x}`) makes building an invalid-values message raise |
| DraftProject.FieldInNameSubstituted | rascal2/widgets/project/project.py:430-434 | as written: a `{0}` in the name is replaced by the listed values |
| DraftProject.RenderEscaped | rascal2/widgets/project/project.py:430-434 | as intended: with the name's braces escaped every issue gets its intended text, whatever the name |
| DraftProject.CheckedLayerAttrs | rascal2/widgets/project/project.py:411-413 | the checked layer attributes are exactly the layer's fields other than `name` and `hydrate_with` |
| DraftProject.CheckedContrastAttrs | rascal2/widgets/project/project.py:447-451 | the checked contrast attributes are exactly the contrast's fields other than `name`, `background_action`, `model` and `resample` |
| DraftProject.ValuePairsMembership | rascal2/widgets/project/project.py:416-424 | an (attribute, value) pair is listed iff the attribute is checked and holds that text |
| DraftProject.LayerRowIssues | rascal2/widgets/project/project.py:415-435 | one layer yields at most a missing message followed by an invalid message, both with its name and 1-based row |
| DraftProject.LayerMissingIff | rascal2/widgets/project/project.py:419-422 | a layer attribute is reported missing iff it is checked, blank and not `hydration` |
| DraftProject.LayerInvalidIff | rascal2/widgets/project/project.py:419-424 | a checked, non-missing layer value is reported invalid iff it is not a parameter name (nor blank) |
| DraftProject.ConcatInRowOrder | rascal2/widgets/project/project.py:415-435 | the flattened messages of numbered rows keep row order and their rows are in range |
| DraftProject.LayerIssueRows | rascal2/widgets/project/project.py:415-435 | one issue list per layer, each being that layer's issues at its row |
| DraftProject.ValidateLayers | rascal2/widgets/project/project.py:400-435 | nothing unless the model is standard layers and there are layers; otherwise messages with rows 1..n in non-decreasing order |
| DraftProject.LayerIssueContents | rascal2/widgets/project/project.py:411-424 | a layer message lists only checked attributes, never a blank `hydration` as missing and never a blank value as invalid |
| DraftProject.BlankHydrationNotReported | rascal2/widgets/project/project.py:411-424 | no message of `validate_layers` names a blank `hydration`, `name` or `hydrate_with` |
| DraftProject.ModelIssues | rascal2/widgets/project/project.py:475-499 | the model check of a contrast yields at most one message, of one of the three model kinds, with its name and row |
| DraftProject.StandardModelChecks | rascal2/widgets/project/project.py:476-492 | under standard layers the invalid model values are exactly the non-blank entries not named in `domain_contrasts` (domains) or `layers` (otherwise), each once |
| DraftProject.CustomModelChecks | rascal2/widgets/project/project.py:493-499 | otherwise an empty model gives "no model set" and a first entry that is not a custom-file name gives "invalid model"; nothing else is reported |
| DraftProject.ModelValuesInFirstOccurrenceOrder | rascal2/widgets/project/project.py:483-485 | the invalid model values appear in the order of their first occurrence |
| DraftProject.ContrastRowIssues | rascal2/widgets/project/project.py:452-499 | one contrast yields at most three messages, each with its name and 1-based row |
| DraftProject.ContrastMissingIff | rascal2/widgets/project/project.py:454-460 | a checked contrast attribute is reported missing iff it is blank |
| DraftProject.ContrastPairsIff | rascal2/widgets/project/project.py:454-462 | a non-blank contrast value is invalid iff it is not a name in the field it refers to (`data`, `bulk_in`, `bulk_out` themselves, other attributes the plural field) |
| DraftProject.ContrastInvalidIssue | rascal2/widgets/project/project.py:464-473 | a contrast yields at most one invalid-values message, and it lists exactly the invalid pairs |
| DraftProject.ContrastIssueRows | rascal2/widgets/project/project.py:452-499 | one issue list per contrast, each being that contrast's issues at its row |
| DraftProject.ValidateContrasts | rascal2/widgets/project/project.py:437-499 | nothing without contrasts; otherwise messages with rows 1..n in non-decreasing order |
| DraftProject.ValidateDraftProject | rascal2/widgets/project/project.py:395-398 | it raises iff building some message raises; otherwise the layer messages come first, then the contrast messages, in order |
| DraftProject.RenderAll | rascal2/widgets/project/project.py:371 | each issue becomes its message, in order; the join raises iff one message raises, which never happens when no name holds a brace |
| DraftProject.SaveGate | rascal2/widgets/project/project.py:362-381 | the project is edited, with the draft as it is, iff there are no messages and pydantic accepts; otherwise every message is written to the terminal |
| DraftProject.MessagesNonEmpty | rascal2/widgets/project/project.py:371-373 | when the validator does not raise every message is non-empty, so an error is never hidden by an empty join |
| DraftProject.SaveChanges | rascal2/widgets/project/project.py:362-381 | saving raises (nothing written, project not edited) exactly when the validator raises; otherwise it is the outcome of the messages and pydantic's verdict |
| DraftProject.SwapModels | rascal2/widgets/project/project.py:326-329 | each contrast takes the model saved under its name, or `[]`, and keeps everything else |
| DraftProject.SwapKeepsNames | rascal2/widgets/project/project.py:326-329 | swapping models keeps every contrast's name |
| DraftProject.CrossTwiceRestores | rascal2/widgets/project/project.py:322-331 | crossing the standard-layers boundary twice restores every contrast's original model (names unique) |
| DraftProject.ProjectWidget.constructor | rascal2/widgets/project/project.py:62-64 | a fresh editor has no draft and no saved contrast models |
| DraftProject.ProjectWidget.UpdateProjectView | rascal2/widgets/project/project.py:246-254 | the draft holds every project field, each class list as a new object of its own, and its values are the project's, which is what `create_draft_project` gives; the saved contrast models are kept |
| DraftProject.ProjectWidget.SwapContrastModels | rascal2/widgets/project/project.py:322-331 | the draft's contrast object takes the swapped models and the current ones are saved; the draft's values change at `contrasts` only |
| DraftProject.ProjectWidget.UpdateDraftProject | rascal2/widgets/project/project.py:269-279 | the given keys are overwritten and every other key kept; a ClassList object put in is held as it is, not copied |
| DraftProject.ProjectWidget.HandleModelUpdate | rascal2/widgets/project/project.py:308-332 | with no draft nothing changes; the new layer model is recorded; crossing the standard-layers boundary swaps, in the draft's own contrast ClassList object, every contrast's model with the saved one and saves the current ones; a same-side change leaves contrasts and saved models alone; the draft's values change at `model` and `contrasts` only, and the draft keeps one object per class list |
| Projects.UpdateFields | rascal2/widgets/project/project.py:279 | the given keys take the given values and every other key is kept |
| Projects.UpdateKeepsValid | rascal2/widgets/project/project.py:279 | updating a project's fields with values of the right types keeps a valid project |
| ProjectItems.SetAttr | rascal2/widgets/project/lists.py:76 | exactly one attribute is replaced, the kind is kept |
| ProjectItems.Names | rascal2/widgets/project/project.py:417 | the names of the items, one per item in order |
| ProjectItems.AttrByNameOfUnique | rascal2/widgets/project/project.py:326-327 | with unique names, the value stored under an item's name is that item's own value |
| Text.Title | rascal2/widgets/project/tables.py:106 | `str.title` on ASCII: same length, a letter is upper-cased iff it does not follow a letter |
| Text.TitleIdempotent | rascal2/widgets/project/tables.py:106 | title-casing twice is the same as once |
| Text.ReplaceChar | rascal2/widgets/project/tables.py:104-106 | every `a` becomes `b`, everything else is kept |
| Text.LastIndexOf | rascal2/widgets/inputs.py:128 | the index of the last occurrence, or -1 when there is none |
| Text.NatToStringValue | rascal2/widgets/project/lists.py:681 | the decimal text of a number reads back as that number |
| Text.ParseInt | rascal2/widgets/inputs.py:128-131 | `int` succeeds exactly on an optional sign followed by at least one digit |
| Text.ParseIntRoundTrip | rascal2/widgets/inputs.py:128-131 | `int(str(n)) == n` and `int("-" + str(n)) == -n` |
| Text.ParentNameOfJoin | rascal2/widgets/project/tables.py:510-513 | a directory and a slash-free name are recovered from their join |
| Text.JoinParentName | rascal2/widgets/project/tables.py:510-513 | joining a path's parent and name gives the path back, and the name is not empty |
| Text.EscapeBraces | rascal2/widgets/project/project.py:430-434 | a text without braces is its own escape |
| Text.FormatBraceless | rascal2/widgets/project/project.py:430-434 | `str.format` copies a braceless start of the template unchanged |
| Text.FormatField | rascal2/widgets/project/project.py:430-434 | the field `{0}` gives the argument |
| Text.FormatEscaped | rascal2/widgets/project/project.py:430-434 | an escaped text formats back to the text itself, whatever braces it holds |
| Text.FormatBadField | rascal2/widgets/project/project.py:430-434 | a `{` that starts neither `{{` nor `{0}` makes `str.format` raise |
| Text.FormatStrayClose | rascal2/widgets/project/project.py:430-434 | a `}` that does not start `}}` makes `str.format` raise |
| Text.FormatAfterBraceless | rascal2/widgets/project/project.py:430-434 | a braceless text followed by `{0}` formats to the text followed by the argument |
| Text.FormatAfterEscaped | rascal2/widgets/project/project.py:430-434 | an escaped text followed by `{0}` formats to the text followed by the argument, for any text |
| Text.FormatKeepsLead | rascal2/widgets/project/project.py:430-434 | a braceless lead survives formatting in front of the rest |
| Text.FormatNameFieldRaises | rascal2/widgets/project/project.py:430-434 | a name holding a field of letters inside a message template makes the format raise |
| Text.FormatNameCloseRaises | rascal2/widgets/project/project.py:430-434 | a name holding a single `}` inside a message template makes the format raise |
| Text.FormatNameFieldSubstituted | rascal2/widgets/project/project.py:430-434 | a name `a{0}c` inside a message template is formatted with the argument in place of its `{0}` |
| Sequences.Dedup | rascal2/widgets/project/project.py:486 | `dict.fromkeys`: no duplicates, and the same elements as the input |
| Sequences.DedupIsFirstOccurrences | rascal2/widgets/project/project.py:486 | `dict.fromkeys` keeps exactly the first occurrence of each element, in order |
| Sequences.RemoveAt | rascal2/widgets/project/lists.py:100-102 | `pop(i)`: the list without its i-th element, the rest in order |
| Sequences.InsertAt | rascal2/widgets/project/lists.py:360 | `insert(i, x)`: `x` at `i`, the rest shifted in order |
| Sequences.RemoveFirstAt | rascal2/widgets/project/tables.py:271 | `pop(index(x))` cuts out the first occurrence of `x` |
| Sequences.MoveThenRemove | rascal2/widgets/project/tables.py:270-271 | moving `fit` to the front and removing `show_priors` keeps the other headers in order |
| Tables.ParameterHeadersShape | rascal2/widgets/project/tables.py:270-271 | moving the first `fit` to the front and removing the first `show_priors` gives `fit`, the other fields before `show_priors` in order, then the fields after it |
| Tables.ParameterHeadersAsBuilt | rascal2/widgets/project/tables.py:268-271 | the parameter table's headers are what its constructor's list operations make of the parameter's fields |
| Tables.CustomFileHeadersAsBuilt | rascal2/widgets/project/tables.py:478-481 | the custom-file table's headers are the fields with `path` removed |
| Tables.HeadersAreFields | rascal2/widgets/project/tables.py:48 | a parameter table's headers start with `fit` and are the fields other than `show_priors`; a custom-file table's are the fields other than `path`; every other table shows all fields (see also lines 270-271, 481) |
| Tables.HeadersPresent | rascal2/widgets/project/tables.py:63 | every header is an attribute of every item its class list can hold |
| Tables.InstanceFits | rascal2/widgets/project/tables.py:63 | an item holding exactly its class's fields has every header of its table |
| Tables.ItemsFitUpdate | rascal2/widgets/project/tables.py:83-84 | replacing one row by a fitting item keeps every row fitting |
| Tables.HeaderTitle | rascal2/widgets/project/tables.py:96-108 | a header title has the header's length |
| Tables.TitledHeaderAt | rascal2/widgets/project/tables.py:105-106 | in a non-`SLD` header each character loses its underscore, keeps its letter up to case, and a letter is upper case iff it starts a word |
| Tables.HeaderTitleShape | rascal2/widgets/project/tables.py:102-106 | no underscore survives; an `SLD` header only has `_` replaced by a space; any other header also has exactly its word-initial letters upper-cased |
| Tables.Shown | rascal2/widgets/project/tables.py:65-72 | an enum is shown as its string, a list joined by ", ", anything else as it is |
| Tables.CellValue | rascal2/widgets/project/tables.py:63-74 | the check-state role answers for `fit` only (checked iff the value is truthy); the display role answers for every other header (see also lines 499-505) |
| Tables.Stored | rascal2/widgets/project/tables.py:80-81 | for `fit` the check state becomes "is Checked"; any other value is kept |
| Tables.StoredShownBack | rascal2/widgets/project/tables.py:57-94 | what `setData` stores `data` shows back: `fit` is checked iff `Checked` was set, any other text or number reads back as set |
| Tables.ParameterFlags | rascal2/widgets/project/tables.py:279-294 | no flags for column 0 or for mu/sigma of a non-gaussian prior; `fit` checkable; `name` editable iff in edit mode on an unprotected row; every other header editable |
| Tables.SignalFlags | rascal2/widgets/project/tables.py:633-674 | a column is disabled iff it is past `num_valid_values[type] + 3`, with (0,1,5) for backgrounds and (0,-1,5) for resolutions; otherwise editable iff in edit mode |
| Tables.ProtectedRowsExact | rascal2/widgets/project/tables.py:273-277 | the protected indices are exactly the rows holding protected parameters, increasing |
| Tables.LanguageFor | rascal2/widgets/project/tables.py:518-538 | `.py` gives Python, `.m` Matlab, `.dll`/`.so`/`.dylib` C++, any other extension nothing |
| Tables.WithFileFields | rascal2/widgets/project/tables.py:512-543 | choosing a file sets the path to the parent and the filename to the name, sets the function name and language only when found, and leaves every other field alone |
| Tables.FirstFunction | rascal2/widgets/project/tables.py:525 | a function name is taken iff the file is Python and defines one, and it is the first (see also lines 540-541) |
| Tables.FilenameShownBack | rascal2/widgets/project/tables.py:499-505 | in edit mode the filename cell shows the chosen file's path again (see also lines 512-514) |
| Tables.ChosenFileExact | rascal2/widgets/project/tables.py:508-543 | a custom file keeps exactly its fields when a file is chosen |
| Tables.ChosenFileFits | rascal2/widgets/project/tables.py:508-543 | choosing a file for one row keeps every row fitting the table |
| Tables.ToAbsorption | rascal2/widgets/project/tables.py:374-384 | each layer becomes its absorption layer, in order |
| Tables.ToPlain | rascal2/widgets/project/tables.py:390-403 | each absorption layer becomes its plain layer, in order |
| Tables.ConvertedLayersExact | rascal2/widgets/project/tables.py:374-403 | converted layers hold exactly the fields of their new class |
| Tables.LayerOnOff | rascal2/widgets/project/tables.py:374-403 | one layer survives a conversion to an absorption layer and back |
| Tables.AbsorptionOffOn | rascal2/widgets/project/tables.py:374-403 | one absorption layer survives a conversion to a plain layer and back when its imaginary SLD is saved under its name |
| Tables.AbsorptionOnOffRestores | rascal2/widgets/project/tables.py:363-407 | turning absorption on and then off gives back the original layers |
| Tables.AbsorptionOffOnRestores | rascal2/widgets/project/tables.py:363-407 | turning absorption off and on again restores every imaginary SLD by layer name (names unique) |
| Tables.TableModel.constructor | rascal2/widgets/project/tables.py:32-49 | the table holds the ClassList object it is given (not a copy) and its handle, the headers its kind derives from the fields, `edit_mode` False, the protected rows of a parameter table, and absorption iff the handle is the absorption layer |
| Tables.TableModel.ColumnCount | rascal2/widgets/project/tables.py:54-55 | one column per header plus the delete column, and the custom-file table's edit column (see also lines 483-484) |
| Tables.TableModel.IndexHeader | rascal2/widgets/project/tables.py:127-144 | column 0 (and the custom-file edit column) has no header; column c≥1 shows `headers[c-1]` (see also lines 551-554) |
| Tables.TableModel.HeaderData | rascal2/widgets/project/tables.py:96-108 | a title exactly for a horizontal display-role header on a column with a header, and it is that header's title (see also lines 486-489) |
| Tables.TableModel.Data | rascal2/widgets/project/tables.py:57-74 | no data for a column without a header, otherwise the cell's value for the role |
| Tables.TableModel.SetData | rascal2/widgets/project/tables.py:76-94 | True iff the role is edit or check-state, the column has a header and pydantic accepts; then only that attribute of that row changes, otherwise nothing; outside edit mode `update_project` is called, recalculating iff the header is `value`; the change is made to the ClassList object itself, which the draft project holds too, and its class handle is kept |
| Tables.TableModel.SetFilename | rascal2/widgets/project/tables.py:508-544 | only the chosen row changes, as `WithFilename` says, and the function names found are recorded under the value; the change is made to the ClassList object itself, which the draft project holds too, and its class handle is kept |
| Tables.TableModel.AppendItem | rascal2/widgets/project/tables.py:110-113 | the constructed item is added at the end and nothing else changes (see also lines 356-361, 546-549); the change is made to the ClassList object itself, which the draft project holds too, and its class handle is kept |
| Tables.TableModel.DeleteItem | rascal2/widgets/project/tables.py:115-125 | exactly that row is removed, the rest keep their order; the change is made to the ClassList object itself, which the draft project holds too, and its class handle is kept |
| Tables.TableModel.SetAbsorption | rascal2/widgets/project/tables.py:363-407 | nothing changes when unchanged; on converts with the saved imaginary SLDs; off saves them by name and converts back; the converted layers are a new ClassList object, which the table takes and the draft holds under `layers`, while the old object is left as it was |
| Tables.NewTableModel | rascal2/widgets/project/tables.py:43-49 | a class that is not a pydantic model raises the NotImplementedError message; otherwise a fresh valid table holding the given ClassList object, not in edit mode |
| ClassListModels.ParameterModelHeadersAsBuilt | rascal2/widgets/project/models.py:228-230 | the parameters model's headers are `fit` followed by every other parameter field in declaration order, `show_priors` included |
| ClassListModels.ModelHeadersPresent | rascal2/widgets/project/models.py:35 | every header is an attribute of every item the class list holds (see also line 50) |
| ClassListModels.ModelHeaderTitle | rascal2/widgets/project/models.py:77-84 | a header title has the header's length |
| ClassListModels.ModelHeaderTitleShape | rascal2/widgets/project/models.py:83 | underscores become spaces, letters keep their identity up to case, and exactly the word-initial letters are upper case; it agrees with the tables' title except on `SLD` headers |
| ClassListModels.ModelShown | rascal2/widgets/project/models.py:52-57 | an enum is shown as its string, anything else as it is |
| ClassListModels.ModelCellValue | rascal2/widgets/project/models.py:44-59 | the check-state role answers for `fit` only (checked iff truthy); the display role answers for every other header, with the shown value |
| ClassListModels.ClassListModel.constructor | rascal2/widgets/project/models.py:28-36 | the model holds the ClassList object it is given (not a copy) and its handle, the headers of its class (parameters: `fit` moved first), `edit_mode` False, and the protected rows of a parameters model (see also lines 228-236) |
| ClassListModels.ClassListModel.ColumnCount | rascal2/widgets/project/models.py:41-42 | the number of headers plus 1 |
| ClassListModels.ClassListModel.IndexHeader | rascal2/widgets/project/models.py:103-120 | column 0 has no header; column c≥1 shows `headers[c-1]` |
| ClassListModels.ClassListModel.HeaderData | rascal2/widgets/project/models.py:77-84 | a title exactly for a horizontal display-role header other than column 0, and it is the header's title |
| ClassListModels.ClassListModel.Data | rascal2/widgets/project/models.py:44-59 | nothing for column 0, otherwise the cell's value for the role |
| ClassListModels.ClassListModel.CellFlags | rascal2/widgets/project/models.py:238-253 | the base model keeps Qt's default flags; the parameters model follows the parameter flag rules |
| ClassListModels.ClassListModel.SetData | rascal2/widgets/project/models.py:61-75 | True iff the role is edit or check-state, the column is not 0 and pydantic accepts; then only that attribute of that row changes, otherwise nothing; `update_project` is called iff stored outside edit mode; the change is made to the ClassList object itself, which the draft project holds too, and its class handle is kept |
| ClassListModels.ClassListModel.AppendItem | rascal2/widgets/project/models.py:86-89 | a default item is added at the end and nothing else changes; the change is made to the ClassList object itself, which the draft project holds too, and its class handle is kept |
| ClassListModels.ClassListModel.DeleteItem | rascal2/widgets/project/models.py:91-101 | `pop(row)`: exactly that row (negative rows counted from the end) is removed, the rest keep their order; the change is made to the ClassList object itself, which the draft project holds too, and its class handle is kept |
| ClassListModels.ModelStoredShownBack | rascal2/widgets/project/models.py:44-75 | what `setData` stores `data` shows back; a stored `fit` is checked iff `Checked` was set |
| ClassListModels.NewClassListModel | rascal2/widgets/project/models.py:31-34 | a class that is not a pydantic model raises the NotImplementedError message; otherwise a fresh valid model holding the given ClassList object, not in edit mode |
| ProjectLists.PopIndex | rascal2/widgets/project/lists.py:100-102 | the index `pop(row)` removes: the row itself, or counted from the end when negative |
| ProjectLists.ClassListItemModel.constructor | rascal2/widgets/project/lists.py:31-37 | the model holds the ClassList object it is given (not a copy) and its handle, `edit_mode` False |
| ProjectLists.ClassListItemModel.Data | rascal2/widgets/project/lists.py:42-45 | the row's name exactly for the display role, nothing otherwise |
| ProjectLists.ClassListItemModel.SetData | rascal2/widgets/project/lists.py:63-77 | an assignment pydantic accepts changes only the named attribute of the given row; a rejected one raises and changes nothing; the change is made to the ClassList object itself, which the draft project holds too, and its class handle is kept |
| ProjectLists.ClassListItemModel.AppendItem | rascal2/widgets/project/lists.py:79-89 | the given item, or a default one, is added at the end; the change is made to the ClassList object itself, which the draft project holds too, and its class handle is kept |
| ProjectLists.ClassListItemModel.DeleteItem | rascal2/widgets/project/lists.py:91-103 | an empty list is left alone; otherwise exactly the popped row is removed, the rest in order (row -1 pops the last); the change is made to the ClassList object itself, which the draft project holds too, and its class handle is kept |
| ProjectLists.SetDataChangesOneAttribute | rascal2/widgets/project/lists.py:76 | `set_data` leaves every other item and every other attribute as it was |
| ProjectLists.DeleteRemovesOne | rascal2/widgets/project/lists.py:100-102 | deleting takes exactly the popped item out, and deleting with no current row right after an append undoes the append |
| ProjectLists.RemoveRow | rascal2/widgets/project/lists.py:372 | `removeRow` removes the row when it is in range and does nothing otherwise (see also line 400) |
| ProjectLists.InsertRow | rascal2/widgets/project/lists.py:360 | `insertRow` puts a blank entry at the row when it is in `0..len`, and does nothing otherwise (see also line 401) |
| ProjectLists.SetRow | rascal2/widgets/project/lists.py:402 | `setData` replaces the row when it is in range, and does nothing otherwise |
| ProjectLists.ClampIsNearest | rascal2/widgets/project/lists.py:392-397 | the clamped row is in range, is the row nearest the one asked for, and equals it iff it was in range |
| ProjectLists.MoveWithoutSelectionAddsBlank | rascal2/widgets/project/lists.py:389-403 | as written, moving with no row selected in a non-empty list inserts a blank entry at the clamped row and moves nothing; an empty list is left as it is |
| ProjectLists.MoveWithoutSelectionExample | rascal2/widgets/project/lists.py:389-403 | as written, one layer `a` with no row selected, moved down one row, becomes a blank layer followed by `a` |
| ProjectLists.MoveAsWrittenMoves | rascal2/widgets/project/lists.py:389-403 | with a row selected, the steps as written move that entry to the clamped row |
| ProjectLists.MovedIsPermutation | rascal2/widgets/project/lists.py:399-402 | a move is a permutation that puts the entry at its new row and keeps the others in order |
| ProjectLists.MovedBackRestores | rascal2/widgets/project/lists.py:399-402 | moving an entry back to where it came from restores the list |
| ProjectLists.StandardLayerModelWidget.constructor | rascal2/widgets/project/lists.py:292-319 | the list holds the initial entries, and Add starts disabled iff there are two |
| ProjectLists.StandardLayerModelWidget.AppendItem | rascal2/widgets/project/lists.py:350-366 | refused for domains with two entries; otherwise a blank entry goes right after the current row and becomes current, and Add is disabled once domains reach two |
| ProjectLists.StandardLayerModelWidget.DeleteItem | rascal2/widgets/project/lists.py:368-377 | exactly the current row is removed (nothing with no current row) and Add is enabled |
| ProjectLists.StandardLayerModelWidget.MoveItem | rascal2/widgets/project/lists.py:379-404 | the current entry moves to clamp(row+delta, 0, n-1), becoming current, as a permutation; nothing happens with no row selected |
| ProjectLists.WithRatios | rascal2/widgets/project/lists.py:433-440 | each contrast gains the ratio saved under its name, or blank |
| ProjectLists.WithoutRatios | rascal2/widgets/project/lists.py:447-462 | each contrast loses its ratio and keeps every other field |
| ProjectLists.DomainsCarryOver | rascal2/widgets/project/lists.py:433-462 | both conversions keep every shared field, give the new class exactly its fields, and take the ratio by name (blank if none) |
| ProjectLists.ContrastOnOff | rascal2/widgets/project/lists.py:433-462 | one contrast survives gaining a ratio and losing it again |
| ProjectLists.ContrastOffOn | rascal2/widgets/project/lists.py:433-462 | one contrast with a ratio survives losing and regaining it when the ratio is saved under its name |
| ProjectLists.DomainsOnOffRestores | rascal2/widgets/project/lists.py:421-470 | turning domains on and then off gives back the original contrasts |
| ProjectLists.DomainsOffOnRestores | rascal2/widgets/project/lists.py:421-470 | turning domains off and on again through one `ContrastModel` restores every ratio by contrast name (names unique); the contrasts widget does not keep that model, see Findings |
| ProjectLists.ConvertedContrastsExact | rascal2/widgets/project/lists.py:433-462 | converted contrasts hold exactly the fields of their new class |
| ProjectLists.ContrastModel.constructor | rascal2/widgets/project/lists.py:416-419 | domains is on iff the class is the contrast with ratio, and no ratios are saved |
| ProjectLists.ContrastModel.SetDomains | rascal2/widgets/project/lists.py:421-470 | nothing when unchanged; on restores the saved ratios by name; off saves them by name and drops them; the converted contrasts are a new ClassList object, which the list takes and the draft holds under `contrasts` |
| ProjectLists.ContrastWidget.constructor | rascal2/widgets/project/lists.py:153-162 | the widget's model is a new `ContrastModel` over the given list, with no ratios saved |
| ProjectLists.ContrastWidget.SetDomains | rascal2/widgets/project/lists.py:630-640 | the model converts the contrasts as `ContrastModel.SetDomains` does, and is then replaced by a new model over the converted list with no ratios saved |
| ProjectLists.WidgetOffOnBlanksRatios | rascal2/widgets/project/lists.py:630-640 | off then on through the widget gives the contrasts converted back with an empty ratio map, not the saved ratios |
| ProjectLists.RebuiltModelBlanksRatios | rascal2/widgets/project/lists.py:445-451 | with no ratios saved every contrast comes back with a blank ratio, so contrasts that had a ratio are not restored |
| ProjectLists.NameOrDefault | rascal2/widgets/project/lists.py:614-628 | a typed name is kept, a blank one becomes the default (see also lines 822-836) |
| ProjectLists.SetNameData | rascal2/widgets/project/lists.py:614-628 | when accepted only the row's name changes, and it is never blank ("Unnamed Contrast" / "Unnamed Data"); when rejected nothing changes (see also lines 822-836) |
| ProjectLists.CopyNameInjective | rascal2/widgets/project/lists.py:680-681 | different copy numbers give different copy names |
| ProjectLists.CopiesBelowGrow | rascal2/widgets/project/lists.py:680-681 | each further copy number adds one new name to those tried |
| ProjectLists.UniqueName | rascal2/widgets/project/lists.py:677-682 | the result is not an existing name; a new name is kept; a clashing name becomes `name-k` for the smallest k≥1 not taken |
| ProjectLists.AppendDatasets | rascal2/widgets/project/lists.py:672-686 | every dataset is appended in order with its other fields kept; against the names present at that moment it keeps its own name when that is free, else takes `name-k` with every `name-j` for 1 ≤ j < k already present; all names stay unique and earlier rows are untouched |
| ProjectLists.AppendKeepsUnique | rascal2/widgets/project/lists.py:683 | appending an item with a new name keeps names unique |
| Settings.KeyNameInjective | rascal2/settings.py:113-129 | different settings have different attribute names |
| Settings.GlobalNameShape | rascal2/settings.py:157-174 | every field has a group, so its global name is `"group/key"`, and group and key are read back from it |
| Settings.GlobalNameInjective | rascal2/core/settings.py:106-123 | no two settings share a global name (lower-case groups of the older variant included) |
| Settings.LevelOfNumber | rascal2/settings.py:58-65 | `LogLevels(n)` gives the member with value n exactly when there is one |
| Settings.Upper | rascal2/settings.py:80 | `str.upper` upper-cases each character in place |
| Settings.ParseLevelName | rascal2/settings.py:67-81 | a level's `__str__` name in any case is read back as that level |
| Settings.ParseNotSet | rascal2/core/settings.py:50-54 | `NOTSET` is a `logging` constant that is not a level, so it is refused |
| Settings.ExplicitSet | rascal2/settings.py:131-133 | the settings counted as set are exactly the declared fields given explicitly |
| Settings.InitialValues | rascal2/settings.py:113-137 | a constructed settings object has a value for every declared field |
| Settings.ExplicitValues | rascal2/settings.py:113-129 | validation of the explicit values gives a value for every declared field |
| Settings.WithGlobals | rascal2/settings.py:133-137 | taking the globals keeps the same fields |
| Settings.GlobalsFitStep | rascal2/settings.py:134-136 | one more field in the loop must fit its global value when it is unset and stored |
| Settings.WithGlobalsStep | rascal2/settings.py:134-137 | one more field in the loop takes its global value exactly when it is unset and stored |
| Settings.Settings.constructor | rascal2/settings.py:98-129 | the explicit values over the defaults, with exactly the explicit declared fields counted as set |
| Settings.Settings.PostInit | rascal2/settings.py:131-137 | succeeds iff every stored global for an unset field fits; then each unset field takes its global value, and the fields counted as set are unchanged |
| Settings.Settings.Saved | rascal2/settings.py:139-148 | `save` writes exactly the set fields, with their values |
| Settings.Settings.SetGlobalSettings | rascal2/settings.py:150-154 | each set field is written under its global name and nothing else is written |
| Settings.WriteGlobalsWrites | rascal2/settings.py:150-154 | after `set_global_settings` each set field's value is stored under its global name |
| Settings.WriteGlobalsKeeps | rascal2/settings.py:150-154 | `set_global_settings` leaves every other name in the store as it was |
| Settings.GlobalsRoundTrip | rascal2/settings.py:131-154 | settings built with nothing explicit from a store written by `set_global_settings` take each written value and count none of them as set |
| Settings.SaveReloadSame | rascal2/core/settings.py:86-97 | validating the saved JSON again under the same global store gives the same values and the same set fields |
| Settings.ConstructionInTwoSteps | rascal2/settings.py:113-137 | validating the explicit values and then taking the globals for the unset fields gives the layered values and accepts the same inputs |
| Settings.NewSettings | rascal2/settings.py:98-137 | construction succeeds iff the explicit values fit and every global taken fits; the result has the layered values and exactly the explicit fields set |
| Settings.Survivors | rascal2/settings.py:200-202 | the surviving stored paths are no more than the stored ones |
| Settings.SurvivorsMembership | rascal2/settings.py:200-202 | a stored path survives iff it exists and is not the new path |
| Settings.SurvivorsNoDuplicates | rascal2/settings.py:200-202 | a list without repeats keeps none among its survivors |
| Settings.RecentProjectsHead | rascal2/settings.py:199 | at most ten paths, and a given path comes first (see also line 204) |
| Settings.RecentProjectsKept | rascal2/settings.py:199-204 | after the given path come only stored paths that exist and differ from it; with fewer than ten, every such stored path is there |
| Settings.RecentProjectsNoDuplicates | rascal2/settings.py:199-204 | a stored list without repeats gives an updated list without repeats |
| Settings.SettingsStore.constructor | rascal2/settings.py:195 | the store starts with the given contents |
| Settings.SettingsStore.UpdateRecentProjects | rascal2/settings.py:177-207 | as written: the updated list is computed from the stored value as the loop iterates it (a string character by character, a missing value as empty), stored as the INI store keeps it under `internal/recent_projects`, and returned; nothing else in the store changes |
| Settings.SettingsStore.UpdateRecentProjectsAsList | rascal2/settings.py:177-207 | as intended: the same, with a stored string read back as the one project it names |
| Settings.MergeRecent | rascal2/settings.py:199-204 | the loop's result is the given path followed by the surviving stored projects in order, cut to ten |
| Settings.IniStored | rascal2/settings.py:206 | the INI store gives back an empty list as no value, a one-item list as its item, and a longer list as the list |
| Settings.Characters | rascal2/settings.py:200 | iterating a string yields each of its characters, in order, as a one-character string |
| Settings.StoredRecent | rascal2/settings.py:195-200 | a stored list is iterated item by item, a stored string character by character, and a missing entry as no projects |
| Settings.StoredRecentRoundTrip | rascal2/settings.py:195-206 | as written, reading back the written list gives the list exactly when it does not hold a single item longer than one character |
| Settings.StoredListRoundTrip | rascal2/settings.py:195-206 | as intended, reading back the written list gives the list |
| Settings.OneProjectReadAsCharacters | rascal2/settings.py:195-206 | as written, after saving `/p` alone and then `/q`, with `/` and `/p` on disk, the list is `/q` then `/` |
| Settings.SecondSaveKeepsFirst | rascal2/settings.py:195-206 | as intended, a second save keeps the project of the first one right after the new one |
| Settings.RecentProjectsKeySeparate | rascal2/settings.py:171-174 | recording recent projects never overwrites a setting's global value (see also line 206) |
| Inputs.LastRequestIsLast | rascal2/widgets/inputs.py:53-61 | the last metadata item that requests a bound wins, and with no request the initial bound stays |
| Inputs.IntLower | rascal2/widgets/inputs.py:54-57 | an integer item requests a minimum iff it has `ge` or `gt`: `gt + 1` when it has `gt` (applied after `ge`), else `ge` |
| Inputs.IntUpper | rascal2/widgets/inputs.py:58-61 | an integer item requests a maximum iff it has `le` or `lt`: `lt - 1` when it has `lt` (applied after `le`), else `le` |
| Inputs.FloatLower | rascal2/widgets/inputs.py:64-66 | a float item requests a minimum iff it has `ge` or `gt`, and it is one of them unchanged |
| Inputs.FloatUpper | rascal2/widgets/inputs.py:67-69 | a float item requests a maximum iff it has `le` or `lt`, and it is one of them unchanged |
| Inputs.SpinBoxRange | rascal2/widgets/inputs.py:52-61 | the integer spin box's range is what the metadata's `setMinimum`/`setMaximum` calls leave, with Qt moving the other bound when they would cross |
| Inputs.IntRangeOrdered | rascal2/widgets/inputs.py:52-61 | whatever the metadata asks for, the integer spin box ends with minimum at most maximum |
| Inputs.IntRangeAsRequested | rascal2/widgets/inputs.py:52-61 | when no requested minimum exceeds a requested maximum, the range is the last bound requested, or the initial one |
| Inputs.SingleIntBound | rascal2/widgets/inputs.py:54-61 | ge→min=ge, gt→min=gt+1, le→max=le, lt→max=lt-1; a minimum above the maximum raises the maximum to it (`ge=150` gives 150 to 150) and a maximum below the minimum lowers the minimum; lower-bound metadata below the maximum leaves the maximum alone |
| Inputs.LastPiece | rascal2/widgets/inputs.py:128 | `split(c)[-1]`: the suffix after the last `c`, which holds no `c`, or the whole text when there is none (see also lines 132-133) |
| Inputs.LastPieceOfJoin | rascal2/widgets/inputs.py:128 | the last piece of a text ending in `c` followed by a piece without `c` is that piece |
| Inputs.ExponentSetsDecimals | rascal2/widgets/inputs.py:126-129 | `m e-k` is Acceptable with `k` decimals; `m e k` asks for `-k` |
| Inputs.ExponentHandled | rascal2/widgets/inputs.py:126-129 | a text whose last `e` is followed by an integer n is Acceptable and sets the decimals to -n |
| Inputs.UnfinishedExponent | rascal2/widgets/inputs.py:130-131 | with nothing parsable after the last `e` the text is Intermediate and the decimals stay |
| Inputs.FractionSetsDecimals | rascal2/widgets/inputs.py:132-134 | `w.f` without an `e` ends with `|f|` decimals; it is handled (Acceptable) iff that differs from the current decimals |
| Inputs.PlainTextDeferred | rascal2/widgets/inputs.py:135 | text with neither `e` nor `.` is left to Qt's own validation |
| Inputs.AdaptiveDoubleSpinBox.constructor | rascal2/widgets/inputs.py:85-88 | Qt's defaults: two decimals and the range 0 to 99.99 |
| Inputs.AdaptiveDoubleSpinBox.Validate | rascal2/widgets/inputs.py:108-135 | handled text returns its state with the input and cursor unchanged; otherwise Qt's verdict; the decimals change only as the rules say and the range never |
| Inputs.AdaptiveDoubleSpinBox.ApplyMetadata | rascal2/widgets/inputs.py:62-69 | the float spin box's range is what the metadata's `ge`/`gt` and `le`/`lt` calls leave, unchanged, with Qt moving the other bound when they would cross; the decimals are kept |
| Inputs.RealRangeOrdered | rascal2/widgets/inputs.py:62-69 | whatever the metadata asks for, the float spin box ends with minimum at most maximum |
| Inputs.RealRangeAsRequested | rascal2/widgets/inputs.py:62-69 | when no requested minimum exceeds a requested maximum, the range is the last `ge`/`gt` and `le`/`lt` requested, or the initial one |
| Inputs.ValidatedInputWidget.constructor | rascal2/widgets/inputs.py:33-73 | Enum→combo box of its values, int→spin box with the metadata range from 0 to 99, float→adaptive spin box with the metadata range from 0 to 99.99 and the default's decimals, bool→check box, anything else→line edit; both ranges as Qt adjusts them |
| Runner.RunItemsOrder | rascal2/core/runner.py:80-99 | with display on: the start line first, then the events, then the finish line and the result tuple last; display off: only the result; an error ends the items with no finish line and no tuple |
| Runner.WorkQueue.constructor | rascal2/core/runner.py:26 | a new queue is empty |
| Runner.WorkQueue.Put | rascal2/core/runner.py:84 | `put` appends the item at the end (see also lines 92, 96, 99) |
| Runner.Run | rascal2/core/runner.py:63-100 | `run` appends exactly the items `RunItems` lists, in that order |
| Runner.Taken | rascal2/core/runner.py:51 | `iter(queue.get, None)` takes no more items than the queue holds |
| Runner.TakenAll | rascal2/core/runner.py:50-51 | every item queued before the `None` sentinel is taken, and the sentinel is consumed with nothing left |
| Runner.EventsIn | rascal2/core/runner.py:58-60 | the events among the taken items are no more than the items |
| Runner.EventsInAppend | rascal2/core/runner.py:58-60 | a further item adds its data to the events iff it is an event |
| Runner.ReceivedAppend | rascal2/core/runner.py:51-60 | a further item adds its event, its signal, and replaces the last result or error by its own kind |
| Runner.ReceiveAllContents | rascal2/core/runner.py:51-60 | routing items in turn appends their events in arrival order, emits one signal each, keeps the last tuple as problem and results and the last exception as error |
| Runner.StepDescribes | rascal2/core/runner.py:52-60 | routing one more item keeps the description of what has been received |
| Runner.TakeOne | rascal2/core/runner.py:51 | reading one item takes the front of the queue |
| Runner.ReceiveAllAppend | rascal2/core/runner.py:51-60 | routing one more item is one more step |
| Runner.RATRunner.constructor | rascal2/core/runner.py:19-33 | a fresh runner has nothing queued or received and neither process nor timer started |
| Runner.RATRunner.Start | rascal2/core/runner.py:35-38 | the process and the timer are started and nothing else changes |
| Runner.RATRunner.Interrupt | rascal2/core/runner.py:40-44 | the timer stops, the process is killed and `stopped` is emitted |
| Runner.RATRunner.Receive | rascal2/core/runner.py:52-60 | one item is routed by its kind: tuple→problem and results and `finished`, exception→error and `stopped`, anything else→appended to events and `event_received` |
| Runner.RATRunner.CheckQueue | rascal2/core/runner.py:46-60 | the timer stops iff the process has died; every item queued before the sentinel is routed in order and the rest of the queue is what followed the sentinel |
| Runner.RunThenDrain | rascal2/core/runner.py:63-100 | draining after a run takes exactly the run's items: start line, events and (on success) finish line as events in order, then the result tuple, or on error the exception and no tuple |
| Runner.ErrorRunItems | rascal2/core/runner.py:86-93 | a run that raised logs the start line and events, then the error, and no result |
| Runner.SuccessRunItems | rascal2/core/runner.py:84-99 | a run that succeeded logs start, events and finish, then its result, and no error |
| Runner.EventsInOfEvents | rascal2/core/runner.py:58-60 | items that are all events give back their data in order |
| Runner.NoOutcomeInEvents | rascal2/core/runner.py:52-57 | items that are all events set neither results nor error |
| Runner.EmptyQueueDrain | rascal2/core/runner.py:46-60 | draining an empty queue receives no events and no results |
| MainWindow.ProjectFilesDistinct | rascal2/ui/model.py:78-82 | controls.json and project.json of one folder are different files |
| MainWindow.LoadMessagesDistinct | rascal2/ui/model.py:101-113 | the invalid-controls error, the invalid-JSON project error and the invalid project error carry three different messages |
| MainWindow.ControlsCheckedFirst | rascal2/ui/model.py:98-105 | invalid controls give the controls error whatever project.json holds, or whether it exists |
| MainWindow.Saved | rascal2/ui/model.py:75-82 | saving writes the folder's controls.json and project.json and leaves every other file alone |
| MainWindow.SaveThenLoad | rascal2/ui/model.py:75-117 | loading what was saved gives back the controls and the project, when RATapi's decoders invert its encoders |
| MainWindow.UpdateAttrs | rascal2/ui/model.py:140 | the given attributes are overwritten and every other attribute is kept |
| MainWindow.UpdateOneAttr | rascal2/ui/model.py:140 | a one-attribute update is the undo command's assignment |
| MainWindow.MainWindowModel.constructor | rascal2/ui/model.py:28-36 | a fresh model has project, results and controls None, an empty log and `save_path` `""` |
| MainWindow.MainWindowModel.CreateProject | rascal2/ui/model.py:38-50 | a default project with the name, new default controls, the save path; results untouched |
| MainWindow.MainWindowModel.UpdateResults | rascal2/ui/model.py:52-61 | the results are replaced and `results_updated` emitted; nothing else changes |
| MainWindow.MainWindowModel.UpdateProject | rascal2/ui/model.py:63-73 | only the given project fields change, and `project_updated` is emitted |
| MainWindow.MainWindowModel.UpdateControls | rascal2/ui/model.py:132-141 | only the given attributes of the same controls object change, and `controls_updated` is emitted |
| MainWindow.MainWindowModel.SaveProject | rascal2/ui/model.py:75-82 | the folder afterwards holds the encoded controls and project under the save path |
| MainWindow.MainWindowModel.LoadProject | rascal2/ui/model.py:84-117 | succeeds iff both files are read and parse (controls first); then controls, project and save path are assigned together; on any error, with its own message, nothing changes |
| MainWindow.MainWindowModel.LoadR1Project | rascal2/ui/model.py:119-130 | on a successful conversion the project, new default controls and the file's parent directory as save path; a failed conversion changes nothing |
| MainWindow.CreatedProjectValid | rascal2/ui/model.py:48 | naming RATapi's default project keeps it a valid project with the same fields |
| MainWindow.R1SavePathHoldsFile | rascal2/ui/model.py:130 | the save path after a RasCAL-1 load is the folder holding the file |
| StartupDialogs.PermissionRule | rascal2/dialogs/startup_dialog.py:184-185 | for a new or loaded project the permission error is raised iff the folder is readable and not writable (see also lines 251-252) |
| StartupDialogs.ProjectFilesRule | rascal2/dialogs/startup_dialog.py:184-188 | past the permission rule, a new project is refused iff controls.json or project.json exists, and a load is refused iff not both exist (see also lines 251-255) |
| StartupDialogs.NewAndLoadExclusive | rascal2/dialogs/startup_dialog.py:184-188 | no folder passes both the new-project and the load rules (see also lines 251-255) |
| StartupDialogs.R1Rule | rascal2/dialogs/startup_dialog.py:295-300 | an unreadable RasCAL-1 file is an error, and a readable one passes iff its folder is writable |
| StartupDialogs.RecentButtons | rascal2/dialogs/startup_dialog.py:216-217 | the load dialog lists the first three recent projects at most, most recent first |
| StartupDialogs.StartupDialog.constructor | rascal2/dialogs/startup_dialog.py:17-33 | a new dialog has empty texts, no errors shown, no presenter calls and is not accepted |
| StartupDialogs.StartupDialog.SetFolderError | rascal2/dialogs/startup_dialog.py:116-133 | a non-empty message is shown; an empty one hides the error |
| StartupDialogs.StartupDialog.OpenFolderSelector | rascal2/dialogs/startup_dialog.py:101-114 | an empty selection changes nothing; a path failing the dialog's rule clears the text and shows that rule's message; one passing becomes the text and hides the error |
| StartupDialogs.StartupDialog.SetName | rascal2/dialogs/startup_dialog.py:164-166 | typing a name verifies it at once |
| StartupDialogs.StartupDialog.VerifyName | rascal2/dialogs/startup_dialog.py:190-198 | the name error is shown iff the name is empty |
| StartupDialogs.StartupDialog.CreateProject | rascal2/dialogs/startup_dialog.py:200-207 | the presenter creates the project and the dialog is accepted iff the name and the folder are non-empty and no folder error was showing |
| StartupDialogs.StartupDialog.LoadProject | rascal2/dialogs/startup_dialog.py:257-269 | the presenter loads iff a folder is given with no error; its ValueError becomes the folder error and keeps the dialog open; success enables the toolbar and accepts |
| StartupDialogs.StartupDialog.LoadRecentProject | rascal2/dialogs/startup_dialog.py:235-242 | a recent-project button puts its path in the text, hides the error and loads it |
| StartupDialogs.StartupDialog.LoadR1Project | rascal2/dialogs/startup_dialog.py:302-310 | the presenter is called with the RasCAL-1 file iff one is given with no error; a conversion that raises is handed back and leaves the toolbar and the dialog as they were; success enables the toolbar and accepts |
| StartupDialogs.ChooseThenCreate | rascal2/dialogs/startup_dialog.py:101-114 | a project is created iff a name is given and the chosen folder passed the new-project rule (see also lines 200-207) |
| ProjectDialogs.Visible | rascal2/dialogs/project_dialog.py:142 | the entries kept are listed entries that do not start with `.` |
| ProjectDialogs.VisibleMembership | rascal2/dialogs/project_dialog.py:142 | an entry is kept iff it is listed and does not start with `.` |
| ProjectDialogs.HiddenEntriesIgnored | rascal2/dialogs/project_dialog.py:142-143 | adding hidden entries never makes a folder count as non-empty |
| ProjectDialogs.ChosenFolderRule | rascal2/dialogs/project_dialog.py:140-146 | a chosen folder is accepted iff every entry in it is hidden |
| ProjectDialogs.ProjectDialog.constructor | rascal2/dialogs/project_dialog.py:25-43 | a new dialog has no folder, empty texts, no errors shown and no presenter calls |
| ProjectDialogs.ProjectDialog.VerifyFolder | rascal2/dialogs/project_dialog.py:136-155 | error iff a chosen folder has visible entries or, with none chosen, the text is empty; on error the text is cleared and the error shown, otherwise the text becomes `folder_path` and the error is hidden |
| ProjectDialogs.ProjectDialog.VerifyName | rascal2/dialogs/project_dialog.py:157-166 | the name error is shown iff the name is empty |
| ProjectDialogs.ProjectDialog.OpenFolderSelector | rascal2/dialogs/project_dialog.py:128-134 | as written: the chooser's answer becomes `folder_path` even when empty, and the folder is verified only when one was chosen |
| ProjectDialogs.ProjectDialog.ChooseFolder | rascal2/dialogs/project_dialog.py:128-134 | as intended: a cancelled chooser changes nothing, so the text keeps showing the chosen folder |
| ProjectDialogs.ProjectDialog.CreateProject | rascal2/dialogs/project_dialog.py:168-178 | name and folder are verified again; the presenter creates the project, the toolbar is enabled and the dialog accepted iff neither shows an error; a text that agreed with the folder is never handed over empty |
| ProjectDialogs.CancelThenCreate | rascal2/dialogs/project_dialog.py:128-155 | as written, choosing a folder, cancelling a second choice and creating hands the presenter an empty folder |
| ProjectDialogs.CancelThenCreateKeepingFolder | rascal2/dialogs/project_dialog.py:128-155 | with the intended selector the same steps hand over the folder chosen first |
| ControlsWidgets.ProceduresDistinct | rascal2/widgets/controls.py:60 | the procedure drop-down lists each procedure once, so an index names one procedure |
| ControlsWidgets.ProcSettings | rascal2/widgets/controls.py:96 | a procedure's form shows no more settings than the procedure has fields |
| ControlsWidgets.ProcSettingsMembership | rascal2/widgets/controls.py:96 | a form shows exactly the procedure's fields other than `procedure` |
| ControlsWidgets.ProcSettingsNoDuplicates | rascal2/widgets/controls.py:96 | a form lists no setting twice when the procedure's fields are distinct |
| ControlsWidgets.InvalidMembership | rascal2/widgets/controls.py:286-295 | a setting is reported invalid iff it is one of the form's settings and its validation label has text |
| ControlsWidgets.InvalidAppend | rascal2/widgets/controls.py:286-295 | the report keeps row order: rows split in two report the first part's invalid settings, then the second's |
| ControlsWidgets.RunErrorNamesEach | rascal2/widgets/controls.py:143-152 | the refusal message names every invalid setting |
| ControlsWidgets.FitSettingsWidget.constructor | rascal2/widgets/controls.py:201-244 | a new form holds the given distinct settings, each with an empty validation label and an unmarked editor |
| ControlsWidgets.FitSettingsWidget.SetValidationText | rascal2/widgets/controls.py:297-312 | the setting's label shows the text, and its editor is marked red iff the text is not empty; other settings keep theirs |
| ControlsWidgets.FitSettingsWidget.SetModelData | rascal2/widgets/controls.py:260-284 | an accepted edit sets the controls' attribute and clears the label; a rejected one leaves the controls as they were and shows the first validation message |
| ControlsWidgets.FitSettingsWidget.GetInvalidInputs | rascal2/widgets/controls.py:286-295 | returns the form's settings, in row order, whose label has text |
| ControlsWidgets.ControlsWidget.constructor | rascal2/widgets/controls.py:88-102 | after setup there is one form per procedure holding its fields other than `procedure`, the drop-down and the shown form are at the controls' procedure (its first index in the procedure list), the controls' values are untouched; Run is enabled and unchecked, Stop disabled |
| ControlsWidgets.ControlsWidget.ToggleRunButton | rascal2/widgets/controls.py:136-167 | switched on with invalid settings it names them and unchecks Run without running; switched on with none it clears the label, disables editing and Run, enables Stop and runs once; switched off it re-enables editing and Run and disables Stop |
| ControlsWidgets.ControlsWidget.RefuseRun | rascal2/widgets/controls.py:143-154 | a refused run shows the message naming the invalid settings, leaves Run unchecked and starts nothing |
| ControlsWidgets.ControlsWidget.StartRun | rascal2/widgets/controls.py:155-159 | a started run clears the label, disables editing and Run, enables Stop and calls the presenter's run once |
| ControlsWidgets.ControlsWidget.StopRun | rascal2/widgets/controls.py:160-163 | switching Run off re-enables editing and Run and disables Stop |
| ControlsWidgets.ControlsWidget.SetProcedure | rascal2/widgets/controls.py:169-185 | the form at the index is shown and the controls' `procedure` becomes the procedure at that index |
| ControlsWidgets.ControlsWidget.UpdateUi | rascal2/widgets/controls.py:104-110 | the drop-down and the shown form follow the controls' procedure |
| ControlsWidgets.ProcedureIndexRoundTrip | rascal2/widgets/controls.py:101 | choosing a procedure by index and redrawing from the controls shows the same index (see also line 179) |
| Config.LinesCons | rascal2/config.py:267 | reading lines of a text that starts with one whole line gives that line, then the lines of the rest |
| Config.LinesOfConcat | rascal2/config.py:267 | reading back lines written one after another, each ending in its only line break, gives exactly those lines |
| Config.MatlabPathRule | rascal2/config.py:255-277 | `get_matlab_path` leaves no error iff the arch file exists and has four lines or none; an empty file gives no directory and no error; a missing file gives the engine-not-found error |
| Config.GetMatlabEngine | rascal2/config.py:161-200 | an error exactly when the output list is empty (MATLAB not started) or starts with an exception, which is returned as it is; otherwise a connection to the named engine, local iff asked for |
| Config.MatlabHelper.constructor | rascal2/config.py:206-212 | a new helper has no error, no output, no cached engine and no process |
| Config.MatlabHelper.GetMatlabPath | rascal2/config.py:255-277 | the directory and the error are those of the four-line rule: the grandparent of the second line, an error for any other non-zero count or a missing file |
| Config.MatlabHelper.AsyncStart | rascal2/config.py:214-229 | the MATLAB process is started iff an install directory is known, and then its output list is a fresh empty one; the error is the path rule's |
| Config.MatlabHelper.GetLocalEngine | rascal2/config.py:237-253 | a cached engine is returned as it is; otherwise an error from `get_matlab_engine` is raised and nothing cached, or the connection is made, cached and returned |
| Config.CachedEngineStays | rascal2/config.py:237-253 | once an engine was obtained, a later call returns the same engine whatever the process output became |
| Config.PathForShape | rascal2/config.py:36-49 | an image's path lies in the `static/images` directory and ends in the image's file name |
| Config.ArchFile.constructor | rascal2/config.py:25 | the arch file holds the given presence and text |
| MatlabSetup.Arch | rascal2/dialogs/matlab_setup_dialog.py:83 | the architecture is a non-empty name without slashes or line breaks (`win64` or `glnxa64`) |
| MatlabSetup.ArchLines | rascal2/dialogs/matlab_setup_dialog.py:84-91 | four lines are written |
| MatlabSetup.WriteAt | rascal2/dialogs/matlab_setup_dialog.py:81-91 | writing at a position leaves the written text at that position, filling a gap past the end with NULs |
| MatlabSetup.ArchLinesAreLines | rascal2/dialogs/matlab_setup_dialog.py:84-91 | each of the four written lines ends in its only line break |
| MatlabSetup.SecondLineGrandparent | rascal2/dialogs/matlab_setup_dialog.py:87 | the second written line's grandparent is the install directory |
| MatlabSetup.ArchRoundTrip | rascal2/dialogs/matlab_setup_dialog.py:84-91 | a file holding exactly the four lines reads back as those lines, and `get_matlab_path` gives the directory without error |
| MatlabSetup.RewriteAfterRead | rascal2/dialogs/matlab_setup_dialog.py:73-91 | as written, a file that held n characters ends up as n NULs followed by the four lines: still four lines and the directory still reads back, but the first line is not the architecture |
| MatlabSetup.MatlabSetupDialog.constructor | rascal2/dialogs/matlab_setup_dialog.py:11-61 | the dialog shows the directory `get_matlab_path` reads and is unchanged |
| MatlabSetup.MatlabSetupDialog.OpenFolderSelector | rascal2/dialogs/matlab_setup_dialog.py:63-68 | a chosen folder is shown and marks the dialog changed; a cancelled choice does nothing |
| MatlabSetup.MatlabSetupDialog.SetMatlabPaths | rascal2/dialogs/matlab_setup_dialog.py:70-93 | as written: a missing file raises; outside a bundle nothing is written; in a bundle the file becomes NULs for its old length then the four lines, and MATLAB starts iff the file had no lines and a directory is now read |
| MatlabSetup.MatlabSetupDialog.SetMatlabPathsRewound | rascal2/dialogs/matlab_setup_dialog.py:70-93 | as intended: in a bundle the file holds exactly the four lines |
| MatlabSetup.MatlabSetupDialog.Accept | rascal2/dialogs/matlab_setup_dialog.py:95-98 | as written: without a chosen folder the file and MATLAB are untouched and the dialog closes; with one, a missing file keeps the dialog open, and in a bundle the file becomes NULs for its old length then the four lines, MATLAB starting iff the file had no lines and a directory is now read |
| MatlabSetup.MatlabSetupDialog.AcceptRewound | rascal2/dialogs/matlab_setup_dialog.py:95-98 | as intended: the same, except that in a bundle the file holds exactly the four lines |
| MatlabSetup.SecondSetupPadsFirstLine | rascal2/dialogs/matlab_setup_dialog.py:73-91 | as written, a second setup leaves a first line that starts with a NUL and is not the architecture line |
| Commands.SetAttr | rascal2/core/commands.py:23 | setting an attribute gives it the new value, adds it if missing and leaves every other attribute as it was |
| Commands.EditControls.constructor | rascal2/core/commands.py:9-13 | the command keeps the controls object, the attribute and the value; the source stores nothing else, and `previous` (the attribute's value before the edit) is extra state used only by the intended undo `RestoringUndo` |
| Commands.EditControls.Redo | rascal2/core/commands.py:18-23 | an accepted assignment sets the attribute; a rejected one raises and leaves the controls as they were |
| Commands.EditControls.Undo | rascal2/core/commands.py:15-16 | as written: undo sets the attribute to the new value, the same as redo |
| Commands.EditControls.RestoringUndo | rascal2/core/commands.py:15-16 | as intended: undo puts back the attribute's value from before the command, or removes an attribute that did not exist |
| Commands.UndoAsWrittenKeepsValue | rascal2/core/commands.py:15-23 | as written, undo after redo leaves the edited controls, so an attribute that held another value is not restored |
| Commands.UndoDoesNotRestore | rascal2/core/commands.py:15-23 | as written, setting `procedure` from `calculate` to `dream` and undoing leaves `dream` |
| Commands.RestoringUndoRestores | rascal2/core/commands.py:15-23 | the restoring undo after redo gives back the controls as they were, and redo after it gives the edited controls again |
| Commands.CommandTextInjective | rascal2/core/commands.py:25-26 | for attribute names without spaces, two command labels are equal only for the same attribute and the same printed value |

## Left out

- Qt itself is not modelled: widget construction, layouts, stylesheets, icons, signals and slots, delegates, persistent editors, selection models and tab visibility. Each method keeps only the data it reads and writes, such as texts, flags, the current row and the shown form.
- Pydantic and RATapi internals are not modelled: `ClassList`, `Project` and `Controls` validation, model-field introspection, `custom_pydantic_validation_error`, the JSON encoders and decoders, `r1_to_project_class`, `RATMain` and `make_results`. Validation verdicts, parsed values and calculation outcomes are parameters. The field orders of the RATapi classes are written out as constants.
- The custom-file function-name scan is an input. It reads a file and matches a regular expression against it.
- Floating point is not modelled. This covers float values, which are held by the text Python prints for them, `textFromValue`, the decimals derived from a default with `log10`, data ranges and progress percentages.
- Qt's clamping of a negative `setDecimals` is not modelled. The model records the requested number of decimals.
- Inputs.AdaptiveDoubleSpinBox.ApplyMetadata: `QDoubleSpinBox` also rounds each bound to the current decimals, and `setDecimals` rounds the range again. That rounding is floating point and is not modelled; the bounds are kept as requested, apart from Qt moving the other bound when they cross. The same holds for the float range in Inputs.ValidatedInputWidget.constructor.
- DraftProject.ProjectWidget.UpdateProjectView: models the draft only. The tabs' `update_model` calls are not a separate step: the table and list models are built with the draft's own ClassList objects. The labels, check boxes and combo boxes it sets are Qt.
- Processes and timing are not modelled: `multiprocessing` processes, queues and events, the `QTimer` polling, `run_matlab`, `MatlabHelper.shutdown` and the 60-second waits. The interprocess queue is a sequence, the engine output is a given list and the process is a flag.
- Disk and OS calls are not modelled: `os.access`, `Path.exists`, `os.listdir`, file reads and writes, and `QSettings`. They become sets of paths, listings, texts and a map. Logging calls are left out.
- The plot, terminal, view, start-up and custom-file-editor widgets are not part of this model. Neither are `main.py`, `delegates.py`, the settings dialog, packaging and the presenter, which are drawing and glue around the modelled rules.
- Text.ParseInt: accepts an optional `-` or `+` sign followed by decimal digits. Python's `int()` also accepts surrounding whitespace and `_` separators, which are not modelled.
- Text.Title: title-cases ASCII letters only. Unicode case mapping is not modelled.
- Config.GetMatlabEngine: the output list holds an engine name or an exception. The source returns `None` when the first output is neither, and that case is not modelled.
- Config.MatlabHelper.GetLocalEngine: the engine future's `result()` is a function parameter `connect`, so waiting for the connection is not modelled.
- MatlabSetup.ArchRoundTrip: requires the chosen directory to be a normalised POSIX path without line breaks, because `pathlib`'s normalisation of other texts is not modelled.
- Text.Parent: paths are POSIX `pathlib` paths on normalised text (`/` separators, no `..` resolution, no drive letters). `pathlib` also drops trailing and doubled slashes and lets an absolute name replace the folder it is joined to; these functions take the text as it comes. The same holds for Text.Name and Text.JoinPosix, and for the members built on them: Tables.WithFilename, Tables.CellValue, MainWindow.FileIn, MainWindow.MainWindowModel.LoadR1Project, Config.MatlabPathOf and MatlabSetup.ArchLines. On Windows `pathlib` joins with `\`, and MatlabSetup.ArchLines still joins with `/` when its `windows` flag is set.
- Text.Format: reads `{{`, `}}` and `{0}` as Python's `str.format` does and treats every other field as raising. Python also accepts other spellings of index 0 (`{00}`, `{0!s}`, `{0:}`, `{0.upper}`), which are not modelled. The exception's type (`KeyError`, `IndexError` or `ValueError`) is not kept.
- Settings.StoredRecent: a value under the recent-projects key that is neither text nor a list of strings is read as no projects. Only `update_recent_projects` writes that key.
- Commands.CommandTextInjective: requires attribute names without spaces, which is true of every controls attribute.

## Findings

| source | as written | input that shows it | evidently intended | confidence | as-written member | corrected member |
|---|---|---|---|---|---|---|
| rascal2/widgets/project/lists.py:389-403 | `move_item` runs its remove/insert/set steps even when no row is current. The removal is refused, but a blank row is still inserted at the clamped row. | The layer list `["a"]`, with no row selected, moved down one row, becomes `["", "a"]`. | With no current row, nothing moves and nothing is added. | not executed; the list is left with no current row only if Qt's selection allows it, which is not shown | ProjectLists.MoveWithoutSelectionExample | ProjectLists.StandardLayerModelWidget.MoveItem |
| rascal2/core/commands.py:15-16 | `undo` assigns the new value, the same as `redo`. | `procedure` is `calculate` and the command sets `dream`. After redo and then undo it is still `dream`. | `undo` restores the value the attribute had before the command. | not executed | Commands.UndoDoesNotRestore | Commands.RestoringUndoRestores |
| rascal2/dialogs/project_dialog.py:132-134 | `open_folder_selector` stores the chooser's answer in `folder_path` even when the chooser was cancelled. The folder text still shows the earlier folder, and `create_project` then hands the presenter an empty folder. | Name `demo`. Choose an empty folder `/home/user/new`, open the chooser again and cancel it, then press Create. The presenter receives (`demo`, `""`). | A cancelled chooser leaves the chosen folder as it was. | not executed | ProjectDialogs.CancelThenCreate | ProjectDialogs.CancelThenCreateKeepingFolder |
| rascal2/dialogs/matlab_setup_dialog.py:78-91 | The arch file is read to its end and `truncate(0)` is called, but the stream is not rewound. The four lines are written at the old end, after that many NUL characters. | A second setup, run after a first one wrote the four lines, leaves a first line that starts with NUL characters instead of the architecture name. | The file holds exactly the four lines. | not executed | MatlabSetup.SecondSetupPadsFirstLine | MatlabSetup.MatlabSetupDialog.SetMatlabPathsRewound |
| rascal2/widgets/project/project.py:430-434 | The invalid-values messages write the item's name into the template with an f-string, and then call `.format` on that template. Braces in the name are read as format syntax. The same holds at lines 468-472 and 487-491. | A contrast named `a{b}` with an invalid model value: building its message raises `KeyError`, and the exception escapes `save_changes`. Named `x}`, it raises `ValueError`. Named `{0}`, its message shows the invalid values where the name should be. | The message shows the name as it is and is written to the terminal. | not executed | DraftProject.BraceFieldRaises | DraftProject.RenderEscaped |
| rascal2/settings.py:195-206 | The list is written to an INI-format `QSettings`. That store gives back a one-item list as a plain string, and the loop then goes through the string's characters. | Save project `/p` when no projects are recorded, then save `/q`, with `/` and `/p` on disk. The list becomes `/q` then `/`, and `/p` is lost. | The stored projects are read back as the list that was written. | not executed; relies on Qt's INI encoding of a one-item list | Settings.OneProjectReadAsCharacters | Settings.SettingsStore.UpdateRecentProjectsAsList |
| rascal2/widgets/project/lists.py:630-640 | `ContrastWidget.set_domains` calls the model's `set_domains` and then `update_model`, which builds a new `ContrastModel` whose saved ratios start empty. The ratios saved when domains were turned off are lost with the old model. | Domains on, one contrast `c` with `domain_ratio` `r`. Turn domains off and on again: `c` comes back with a blank `domain_ratio`. | Turning domains off and on again restores each contrast's ratio, as the model's comment at lines 445-446 says. | not executed | ProjectLists.WidgetOffOnBlanksRatios | ProjectLists.DomainsOffOnRestores |
