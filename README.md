# Dynamic sheets: a Dafny model of the data and sheet core

The repository offers three interchangeable front ends for one small
application: a workspace of *sheets*, each holding *tabs*, and a shared store
of uploaded tables.
- `main.py` is written with Dash.
- `new.py` and `streamlit.py` are written with Streamlit.

Behind the widgets each front end keeps the same three pieces:

- a **DataManager**, a Python dict of pandas frames. `main.py` and
  `streamlit.py` key it by file name; `new.py` keys it by a fresh `uuid4`.
  It offers loading by extension, row-wise aggregation in insertion order and
  the aggregate's column names;
- a **TabFactory**, the registry of tab classes by class name. A discovery
  loop fills it, it creates tabs by name and it lists the names in order;
- a **SheetManager** plus an **active sheet index**: the list of sheets, each
  a list of tabs (tab names in `streamlit.py`), which the app updates on each
  click.

The model keeps each front end's own variant; they differ on an empty store,
on reloading a name, on the case of an extension and on the sheet-index check.

Layout (one module per file):

- `outcomes.dfy` (`Outcomes`): `Option` and `Result`.
- `strings.dfy` (`Strings`): the string functions the sources use.
  - `str.endswith`, ASCII `str.lower`, the `s[:k]` slice.
  - `str(n)` on naturals with its inverse.
  - The facts that make numbered labels distinct.
- `dicts.dfy` (`Dicts`): a Python dict as keys in insertion order plus a
  map. Assigning an existing key keeps its position; a new key goes last.
- `tables.dfy` (`Tables`): a frame as column names plus rows (maps from column
  to cell).
  - `pd.concat` is the ordered outer union of the columns with the rows appended.
  - `df.empty` is modelled, and decoding is an oracle that returns a frame,
    a missing-engine `ImportError`, or another failure.
- `registry.dfy` (`Registry`): the tab kinds, discovery, lookup and the
  dropdown options; the `TabFactory` class.
- `sheets.dfy` (`Sheets`): Python list subscripts, the two range checks of
  `add_tab_to_sheet`, the active-index invariant and the sheet captions.
- `dash_main.dfy` (`DashMain`): `main.py`.
- `streamlit_uuid.dfy` (`StreamlitUuid`): `new.py`.
- `streamlit_named.dfy` (`StreamlitNamed`): `streamlit.py`.
- `variants.dfy` (`Variants`): inputs on which the front ends disagree.

Each front end's per-click behaviour is a pure `Step` over a `State` value.
The app class's callback method is proved to compute exactly `Step` on its
fields. The invariants (the active index names an existing sheet; tab
identifiers are fresh and distinct; every stored tab name is registered)
are proved as lemmas about `Step`.

Behaviour of the code that the model keeps as written:
- `main.py` and `streamlit.py` key files by name, so reloading a name
  replaces its frame in its old position. Only `new.py` keys by fresh
  identifiers, so there the same file loaded twice is stored twice.
- `main.py`'s `aggregate_data` raises `StopIteration` on an empty store, and
  `streamlit.py`'s concatenates even a single frame.
- `new.py`'s `load_data` returns `""` for an unsupported extension instead of
  raising.
- An upload loop that raises part-way keeps the files it loaded before.
- `new.py` draws an identifier even for a file it then rejects.
- None of the three files can delete a sheet.

## Model

| member | source | states |
|---|---|---|
| Registry.Register | main.py:28-30 | the discovery fold keeps the registry a well-formed dict |
| Registry.RegisterRecords | main.py:26-30 | after discovery every listed kind is registered under its class name; earlier names keep their positions |
| Registry.RegisterIdempotent | main.py:26-30 | running discovery a second time leaves the registry unchanged |
| Registry.RegisterAgain | main.py:28-30 | registering kinds that are already recorded under their names leaves the registry unchanged |
| Registry.DiscoveryTurns | main.py:26-30 | the two turns of discovery from empty register exactly `UploadTab` then `PlotsTab`, in that order, each name mapping to its own class |
| Registry.Discovered | main.py:212-213 | the registry a factory holds after its discovery run is the discovery fold over the subclasses from empty; it records every kind under its own name, and no entry names a wrong class |
| Registry.TabFactory.DiscoverTabs | main.py:26-30 | the loop leaves the registry equal to the discovery fold over the subclasses |
| Registry.TabFactory.constructor | main.py:23-24 | a new factory has an empty registry |
| Registry.NewDiscoveredFactory | new.py:32-34 | the factory of new.py and streamlit.py has the fully discovered registry once built |
| Registry.Lookup | main.py:32-36 | a name is found iff it is registered; a found class carries that name; a failure reports the name |
| Registry.TabOptions | main.py:38-40 | one option per registered name in registration order, label = value = name; each option is creatable and each creatable name has an option |
| Registry.TabFactory.GetTabNames | streamlit.py:126-128 | the registered names in registration order, which are the values of the options main.py and new.py offer; a name is listed iff `create_tab` accepts it |
| Dicts.Dict.Put | main.py:51 | dict assignment: an existing key keeps its position and gets the new value; a new key is appended last; the dict stays well formed |
| Tables.Concat | main.py:71 | the concatenation is a well-formed frame whose row count is the sum of the row counts |
| Tables.ConcatRowsInOrder | main.py:71 | row `j` of frame `k` sits right after the rows of all earlier frames |
| Tables.ConcatColumns | main.py:76 | a column is in the concatenation iff it is in some frame; the first frame's columns come first |
| Tables.MergeColumns | main.py:71 | the column union keeps the first list as a prefix, adds exactly the missing names, and repeats none |
| Tables.MergeColumnsDisjoint | main.py:71 | frames with no shared column names put the columns side by side, first list then second |
| Tables.ConcatSnoc | main.py:71 | concatenating one more frame appends exactly its rows to the earlier concatenation |
| Tables.ConcatSingleton | main.py:72 | concatenating one frame gives that frame |
| Sheets.PyIndex | main.py:168 | a Python list subscript succeeds iff `-n <= i < n`, and a negative index counts from the end |
| Sheets.AppendUpperChecked | main.py:165-168 | the one-sided check fails iff the index is `>= len` or below `-len`; otherwise exactly the named sheet gains the tab at its end |
| Sheets.AppendRangeChecked | streamlit.py:144-148 | the two-sided check fails iff the index is outside `[0, len)`; otherwise exactly that sheet gains the tab |
| Sheets.ChecksDifferOnNegative | new.py:176-179 | for `-len <= i < 0` the one-sided check appends to sheet `len + i` where the two-sided check raises |
| Sheets.ChecksAgreeOnNonNegative | streamlit.py:144-148 | on a non-negative index the one-sided check of main.py and new.py and the two-sided check of streamlit.py give the same outcome |
| Sheets.SheetCaptions | main.py:281-288 | one caption `Sheet i+1` per sheet, no two alike |
| DashMain.UploadFileType | main.py:105 | the upload handler passes `xlsx` iff the name ends with `.xlsx` and never a type `load_data` rejects |
| DashMain.FormatOf | main.py:61-67 | `load_data` picks the spreadsheet decoder iff the type is `xlsx`, the CSV decoder iff it is `csv`, and none for any other type |
| DashMain.Load | main.py:47-67 | an unknown type raises `NotImplementedError`, a failed read raises, and neither stores anything; success stores the frame under the file name, with the entry count unchanged on a reload |
| DashMain.LoadRowCount | main.py:51 | after a load the stored row total gains the new rows, less the replaced frame's rows on a reload |
| DashMain.DataManager.LoadAs | main.py:47-59 | the loader stores the decoded frame under the file name and returns it, or raises and stores nothing |
| DashMain.DataManager.LoadData | main.py:61-67 | the method computes exactly `Load` on the store |
| DashMain.DataManager.constructor | main.py:44-45 | the store starts empty |
| DashMain.Aggregate | main.py:69-72 | fails iff nothing is stored; otherwise it is the concatenation in insertion order, even for a single frame returned as is |
| DashMain.ColumnNames | main.py:74-77 | `[]` with nothing stored, else the aggregate's columns, none twice |
| DashMain.LoadUploads | main.py:103-106 | the handler's loop keeps the store well formed and raises only a read failure |
| DashMain.LoadUploadsStores | main.py:103-106 | the loop keeps every key stored before it in its position, and when it raises nothing every upload is stored under its own file name |
| DashMain.LoadUploadsLastWins | main.py:103-106 | when the loop raises nothing, each file name is stored with the frame decoded from the last upload carrying that name |
| DashMain.LoadUploadsLeaves | main.py:103-106 | uploads under other file names leave an already stored frame unchanged |
| DashMain.LoadUploadsStopsAt | main.py:103-106 | when the uploads before upload `k` load and the read of upload `k` fails, the loop raises there, leaving the store exactly as the loop over the uploads before it leaves it |
| DashMain.HandleUpload | main.py:102-112 | no uploads shows the notice; otherwise the loop's store and a preview of its concatenation, or the read error (main.py never registers this callback; see "Left out") |
| DashMain.CreateTab | main.py:32-36 | unknown name raises `ValueError`; a known one gives an instance of that class holding the given data manager |
| DashMain.SheetLayoutOf | main.py:170-201 | raises iff the index is `>= len` or below `-len`; otherwise the named sheet's tabs in order, the options and the index |
| DashMain.SheetManager.GetSheetLayout | main.py:170-201 | succeeds iff `-len <= i < len`; the layout lists the kinds of exactly the indexed sheet's tabs, in order (counted from the end for a negative index), and carries the factory's options and the index it was given; it is `SheetLayoutOf` of the sheets |
| DashMain.SheetManager.AddSheet | main.py:162-163 | one empty sheet is appended |
| DashMain.SheetManager.AddTabToSheet | main.py:165-168 | computes `AppendUpperChecked`, leaving the sheets unchanged when it raises |
| DashMain.SheetManager.constructor | main.py:159-160 | no sheets at first |
| DashMain.Render | main.py:280-293 | `IndexError` iff the active index fails the `>= len` check or the list subscript; otherwise the captions `Sheet 1` … `Sheet n`, one per sheet, and a layout listing the kinds of the active sheet's tabs in order, with the options and the index |
| DashMain.Step | main.py:254-293 | no trigger returns blank outputs and changes nothing; add-sheet appends an empty sheet, activates it and never raises; a sheet button sets the index; add-tab keeps the index; with no dropdown it raises `IndexError`, with an empty choice it changes nothing; a non-empty registered choice and an index in `-len <= i < len` append a tab of that type holding the data manager to exactly the indexed sheet, and conversely any change of the sheets is such an append; a successful call returns the page of the new state |
| DashMain.StepKeepsActiveInRange | main.py:254-293 | every trigger the page can emit keeps the active index on an existing sheet and makes the callback succeed |
| DashMain.StepUnknownType | main.py:276-278 | adding an unregistered type raises `ValueError` and changes no sheet |
| DashMain.StepAddSheet | main.py:262-264 | add-sheet appends an empty sheet and makes it the active one |
| DashMain.DashApp.UpdateLayout | main.py:254-293 | the callback computes exactly `Step` on the sheets and active index and keeps the registry and store valid |
| DashMain.DashApp.AddTabClicked | main.py:272-278 | the add-tab branch of the callback computes exactly `Step` for that trigger |
| DashMain.DashApp.RenderPage | main.py:281-293 | the navigation and the active sheet's layout are exactly `Render` of the state, with the factory's options |
| DashMain.DashApp.constructor | main.py:205-213 | empty managers, active sheet 0, fully discovered registry |
| StreamlitUuid.UuidTextInjective | new.py:19 | different identifiers have different texts |
| StreamlitUuid.UuidSource.Draw | new.py:67 | each draw returns the next identifier and advances the generator |
| StreamlitUuid.LoadFile | new.py:60-83 | `""` and nothing stored for another extension or a missing xlsx engine; other read failures raise; success stores the frame with the original name under the new id and returns the id's non-empty text |
| StreamlitUuid.LoadFileAddsOne | new.py:82 | a successful load appends exactly one entry, keeps every earlier entry even for a repeated name, and keeps all keys fresh |
| StreamlitUuid.FormatOfName | new.py:68-80 | the lower-cased name picks the spreadsheet decoder iff it ends with `.xlsx`, the CSV decoder iff it ends with `.csv` and not `.xlsx`, and none otherwise |
| StreamlitUuid.LoadFileAggregate | new.py:82-95 | after a successful load the stored frames are the earlier ones followed by the new frame, and the aggregate gains exactly its rows |
| StreamlitUuid.DataManager.LoadData | new.py:60-83 | draws one identifier and computes exactly `LoadFile`, keeping every key below the generator |
| StreamlitUuid.DataManager.constructor | new.py:56-58 | the store starts empty |
| StreamlitUuid.Aggregate | new.py:85-95 | the concatenation of the stored frames in order: the empty frame for none, the frame itself for one |
| StreamlitUuid.ColumnNames | new.py:97-99 | exactly the aggregate's column list in its order: `[]` for an empty store, a name listed iff some stored frame has it, none twice |
| StreamlitUuid.UploadFiles | new.py:120-122 | the upload tab's loop draws one identifier per file it reaches, keeps every key below the generator, raises only a read failure, and draws one per file when it raises nothing |
| StreamlitUuid.UploadFilesKeeps | new.py:120-122 | the loop never drops or changes an earlier entry |
| StreamlitUuid.UploadFilesErrorIndependent | new.py:120-122 | whether the loop raises depends on the files alone, not on the store or the generator |
| StreamlitUuid.UploadFilesRows | new.py:120-122 | a loop that raises nothing adds one entry per stored file and exactly those files' rows, whatever was stored before |
| StreamlitUuid.UploadRerunDuplicates | new.py:108-126 | two runs that render the upload tab with the same files held store each file twice: twice the entries and twice the rows in the aggregate |
| StreamlitUuid.LoadFiles | new.py:120-122 | the loop method computes exactly `UploadFiles` on the store and the generator |
| StreamlitUuid.RenderUpload | new.py:108-131 | the upload tab's body loads the held files as `UploadFiles` says, then previews the aggregate, or raises the loop's error |
| StreamlitUuid.CreateTabAt | new.py:41-44 | unknown name raises `ValueError`; otherwise an instance of that class with the given data manager and the next fresh identifier |
| StreamlitUuid.CreateTab | new.py:16-19 | an identifier is drawn only when a tab is created |
| StreamlitUuid.TabTitleInjective | new.py:205 | titles at different positions differ whatever the identifiers |
| StreamlitUuid.RenderSheetView | new.py:189-205 | "No sheet selected." iff the index is outside `[0, len)`, "no tabs" iff the sheet is empty, else one title per tab in order, pairwise distinct |
| StreamlitUuid.SheetManager.AddSheet | new.py:173-174 | one empty sheet is appended |
| StreamlitUuid.SheetManager.AddTabToSheet | new.py:176-179 | computes `AppendUpperChecked`, leaving the sheets unchanged when it raises |
| StreamlitUuid.SheetManager.GetTabsInSheet | new.py:184-187 | the sheet for an index in `[0, len)`, no tabs for any other index |
| StreamlitUuid.SheetManager.GetSheetCount | new.py:181-182 | zero iff there are no sheets, and an index is below the count iff `render_sheet` does not show "No sheet selected." for it |
| StreamlitUuid.SheetManager.constructor | new.py:170-171 | no sheets at first |
| StreamlitUuid.Render | new.py:246-279 | one caption per sheet; the placeholder iff there are no sheets; otherwise the active number and `render_sheet` of the active index, which never shows "No sheet selected." from a valid state |
| StreamlitUuid.Apply | new.py:240-270 | only add-tab can raise or draw an identifier, and it draws one exactly when it creates a tab; add-sheet appends an empty sheet and activates it; a sheet button within range makes that sheet active and changes nothing else, one out of range changes nothing; add-tab keeps the index; an unknown type raises `ValueError` and changes nothing; an `IndexError` leaves the sheets unchanged |
| StreamlitUuid.Step | new.py:226-279 | a run changes the state as `Apply` does, raises iff `Apply` raises, and otherwise shows the page of the state it ends in |
| StreamlitUuid.InitialStateValid | new.py:281-289 | the initial session state satisfies the invariant |
| StreamlitUuid.StepKeepsValid | new.py:226-279 | every run keeps the active index in range and every tab's identifier fresh and unique |
| StreamlitUuid.StepNeverRaises | new.py:264-268 | from a valid state, adding a registered tab type or any other click never raises |
| StreamlitUuid.StepEffects | new.py:241-243 | add-sheet appends an empty sheet and activates it; add-tab appends a tab with a fresh identifier to the active sheet only |
| StreamlitUuid.StreamlitApp.HandleClick | new.py:240-270 | the sidebar's buttons change the session state exactly as `Apply` says, raising only what `Apply` raises |
| StreamlitUuid.StreamlitApp.Run | new.py:226-279 | the sidebar and the sheet display compute exactly `Step` on the session state and keep it valid; the tab bodies are not run (see "Left out") |
| StreamlitUuid.StreamlitApp.constructor | new.py:281-289 | fresh managers, the discovered registry and active index 0 |
| StreamlitNamed.Load | streamlit.py:25-32 | case-sensitive dispatch; another extension raises `NotImplementedError`, a failed read raises, neither stores; success stores under the name, with the entry count unchanged on a reload |
| StreamlitNamed.FormatOfName | streamlit.py:27-32 | the name as given picks the spreadsheet decoder iff it ends with `.xlsx`, the CSV decoder iff it ends with `.csv` and not `.xlsx`, and none otherwise |
| StreamlitNamed.DataManager.LoadAs | streamlit.py:15-23 | the loader stores the decoded frame under the file name and returns it, or raises and stores nothing |
| StreamlitNamed.DataManager.LoadData | streamlit.py:25-32 | the method computes exactly `Load` on the store |
| StreamlitNamed.DataManager.constructor | streamlit.py:12-13 | the store starts empty |
| StreamlitNamed.Aggregate | streamlit.py:34-37 | the empty frame for none; otherwise always the concatenation, with every row of every frame in insertion order |
| StreamlitNamed.ColumnNames | streamlit.py:39-41 | `[]` whenever the aggregate has no columns or no rows, else its columns, none twice |
| StreamlitNamed.ColumnNamesWithoutRows | streamlit.py:41 | frames without rows give no column names even when they have columns |
| StreamlitNamed.UploadFiles | streamlit.py:67-72 | the upload tab's loop keeps the store well formed and every stored name, and when it raises nothing stores every held file under its name |
| StreamlitNamed.UploadFilesSucceeds | streamlit.py:67-72 | the loop raises nothing iff every held file has a supported extension and decodes, whatever is stored |
| StreamlitNamed.UnsupportedFileRaises | streamlit.py:63-72 | the uploader has no type filter, so a held file of another extension makes the loop raise, whatever is stored |
| StreamlitNamed.UploadFilesAssigns | streamlit.py:67-72 | a loop that raises nothing assigns every file's frame under its name in order, and keeps the key order when every name was already stored |
| StreamlitNamed.UploadRerunIdempotent | streamlit.py:61-79 | a rerun of the upload tab with the same files held leaves the store as the first run left it |
| StreamlitNamed.LoadFiles | streamlit.py:67-72 | the loop method computes exactly `UploadFiles` on the store |
| StreamlitNamed.RenderUpload | streamlit.py:61-79 | the upload tab's body loads the held files as `UploadFiles` says, then previews the aggregate, or raises the loop's error |
| StreamlitNamed.Instantiate | streamlit.py:228-234 | succeeds iff every name on the sheet is registered, giving each name's class in order; otherwise `ValueError` for the first unregistered name |
| StreamlitNamed.InstantiateNames | streamlit.py:120-124 | each created tab is of the class its name names |
| StreamlitNamed.CreateTabs | streamlit.py:230-234 | the rendering loop computes exactly `Instantiate` |
| StreamlitNamed.SheetManager.AddSheet | streamlit.py:140-142 | one empty sheet is appended |
| StreamlitNamed.SheetManager.AddTabToSheet | streamlit.py:144-148 | computes `AppendRangeChecked`, leaving the sheets unchanged when it raises |
| StreamlitNamed.SheetManager.GetSheetTabs | streamlit.py:150-152 | succeeds iff `-len <= i < len` and gives the sheet a Python subscript names |
| StreamlitNamed.SheetManager.constructor | streamlit.py:135-138 | no sheets at first |
| StreamlitNamed.RenderShows | streamlit.py:196-234 | raises iff the active sheet holds an unregistered name, then `ValueError`; otherwise one caption per sheet, the no-sheets text iff there are none, the invalid-index message iff the index is out of range, and for the active sheet its number, the offered names and each tab's label with the class its name names |
| StreamlitNamed.Step | streamlit.py:177-234 | add-sheet appends an empty sheet and activates it; a sheet click within range makes that sheet active and changes nothing else, one out of range changes nothing; add-tab keeps the index and appends the chosen name to the active sheet exactly when the index is valid; the run shows `Render` of the state it ends in |
| StreamlitNamed.StepKeepsValid | streamlit.py:177-219 | every run keeps the active index in range and every stored tab name registered |
| StreamlitNamed.StepNeverRaises | streamlit.py:196-234 | from a valid state the sheet controls and the sheet display never raise and never show the invalid-index message; the tab bodies are not included (see "Left out") |
| StreamlitNamed.StepEffects | streamlit.py:184-186 | add-sheet appends an empty sheet and activates it; add-tab appends the chosen name to the active sheet only |
| StreamlitNamed.StreamlitApp.SetActiveSheet | streamlit.py:174-175 | the active index becomes the given one |
| StreamlitNamed.StreamlitApp.Run | streamlit.py:177-234 | a run's sheet controls and sheet display compute exactly `Step` on the session state; the tab bodies are not run (see "Left out") |
| StreamlitNamed.StreamlitApp.ApplyClick | streamlit.py:182-219 | the sheet controls and the add-tab button change the session state exactly as `Step` does |
| StreamlitNamed.StreamlitApp.RenderActiveSheet | streamlit.py:196-234 | the method computes exactly `Render` on the session state, whose content `RenderShows` states |
| StreamlitNamed.StreamlitApp.constructor | streamlit.py:159-172 | fresh managers, the discovered registry and active sheet 0 |
| Variants.LowerCasedTestAcceptsMore | new.py:68-77 | every name streamlit.py's case-sensitive test accepts goes to the same decoder under new.py's lower-cased test |
| Variants.UpperCaseExtension | new.py:68-77 | `REPORT.CSV` is refused by streamlit.py and read as CSV by new.py and by main.py's upload handler |
| Variants.RowlessFrameColumns | streamlit.py:39-41 | for one frame with columns but no rows, main.py and new.py list its columns and streamlit.py lists none |

## Left out

- The widgets and layouts (Dash components, Streamlit calls, styles, headings, success/warning/error messages) are not modelled. The model keeps their effect on the managers and the structure of what a run shows.
- The Dash callback plumbing (`callback_context`, `n_clicks`, the `eval` of the triggered id) becomes a `Trigger` value.
- Streamlit's session state becomes the app's fields. `st.experimental_rerun` is modelled as showing the page of the new state, since the rerun has no click.
- Base64 decoding, the data-URL split and `pd.read_excel`/`pd.read_csv` become a decoder oracle (`Reader`). A malformed data URL is one more read failure.
- Cell values and column names are abstract. Pandas dtypes, the row index that `ignore_index` renumbers, and the missing-value fill in `pd.concat` are not modelled; a row simply lacks the columns its frame lacks.
- The previews are not modelled: `head(20)`, `head(50)`, `page_size=10` and `to_dict("records")` only limit what is displayed.
- `PlotsTab` (column choice, `value_counts`, charts) is plotting and is not modelled.
- `Tab.__subclasses__()` becomes the fixed list `UploadTab`, `PlotsTab`.
- `uuid.uuid4()` becomes a counter. The text of an identifier is the counter in decimal rather than 36 hexadecimal characters. The model uses only freshness and being non-empty; title distinctness does not depend on the identifier.
- `str.lower` is modelled on ASCII letters only.
- `DashApp.create_layout`, `register_callbacks` and `run` only wire the framework.
- DashMain.HandleUpload: contents and file names are paired per upload. `zip` dropping the tail of the longer list is not modelled.
- DashMain.HandleUpload: main.py never calls `UploadTab.register_callbacks` or `PlotsTab.register_callbacks`; `DashApp` registers only its own `update_layout` (main.py:215, 238-293). In the program as written this handler is never wired and the Dash store stays empty. The model describes the handler as it would run once registered.
- DashMain.Load: the default `filetype="xlsx"` of `load_data` (main.py:61) is not modelled. The type is always passed, as the only caller, `handle_upload`, does.
- StreamlitUuid.StreamlitApp.Run and StreamlitUuid.Step: a run here does not execute the tab bodies. In new.py every tab of the active sheet is rendered on every run (new.py:209-211). An upload tab then loads again every file its uploader still holds, each under a fresh identifier (new.py:120-122). So every run that shows such a tab, a sidebar click included, grows `data_map` and repeats those rows in the aggregate. `StreamlitUuid.RenderUpload` models that body on its own, and `StreamlitUuid.UploadRerunDuplicates` proves the duplication.
- StreamlitNamed.StepNeverRaises, StreamlitNamed.Step and StreamlitNamed.StreamlitApp.Run: a run here instantiates the active sheet's tabs but does not execute their bodies (streamlit.py:230-234). The uploader of streamlit.py has no type filter (streamlit.py:63-66). Once it holds a file of another extension, every run that shows that upload tab raises `NotImplementedError` (`StreamlitNamed.UnsupportedFileRaises`). So "no run raises" covers the sheet controls and the sheet display only. `StreamlitNamed.RenderUpload` models the upload body on its own, and `StreamlitNamed.UploadRerunIdempotent` shows that reruns with the same files leave the store unchanged.
- StreamlitUuid.StreamlitApp.Run: requires the valid session state, with the active index in range, which every run keeps. The `IndexError` of `add_tab_to_sheet` stays in `Step` but cannot happen in the method.
- StreamlitUuid.Step and StreamlitNamed.Step: the chosen tab type is always a string. A select box with no options (`None`) cannot occur, since the registry is never empty.
