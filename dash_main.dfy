/**
 * The Dash front end (main.py). Uploaded files are stored under their file
 * names; one callback adds sheets, switches the active sheet and adds tabs.
 */
module DashMain {
  import opened Outcomes
  import opened Strings
  import opened Dicts
  import opened Tables
  import opened Registry
  import opened Sheets

  /** What the operations of this front end raise. */
  datatype Error =
    | NotImplementedType(filetype: string)  // load_data: NotImplementedError
    | ReadFailed                            // splitting or decoding the upload raised
    | NotRegistered(name: string)           // create_tab: ValueError
    | IndexError                            // a sheet index or the dropdown list is out of range

  // ---------------------------------------------------------------- DataManager

  /** `load_data`'s dispatch on the declared file type. */
  function FormatOf(filetype: string): (r: Option<Format>)
    ensures r == Some(Xlsx) <==> filetype == "xlsx"
    ensures r == Some(Csv) <==> filetype == "csv"
  {
    if filetype == "xlsx" then Some(Xlsx) else if filetype == "csv" then Some(Csv) else None
  }

  /** `handle_upload`'s rule: a name ending ".xlsx" (case-sensitively) is a
      spreadsheet and every other name is read as CSV, so the type it passes
      is never one `load_data` rejects. */
  function UploadFileType(filename: string): (filetype: string)
    ensures FormatOf(filetype).Some?
    ensures FormatOf(filetype) == Some(Xlsx) <==> EndsWith(filename, ".xlsx")
  {
    if EndsWith(filename, ".xlsx") then "xlsx" else "csv"
  }

  /**
   * `load_data` followed by `load_xlsx` or `load_csv`, on the store `d`: the
   * new store and what the call returns or raises. An unknown type raises
   * before anything is read; a read that raises stores nothing; a successful
   * read stores the frame under the file name, replacing an earlier frame of
   * that name in its old position.
   */
  function Load(d: Dict<string, Frame>, read: Reader, filename: string, filetype: string)
    : (out: (Dict<string, Frame>, Result<Frame, Error>))
    requires d.Valid()
    ensures out.0.Valid()
    ensures out.1.Failure? ==> out.0 == d
    ensures FormatOf(filetype).None? <==> out.1 == Failure(NotImplementedType(filetype))
    ensures FormatOf(filetype).Some? ==>
      (read(FormatOf(filetype).value).Parsed? <==> out.1.Success?)
    ensures out.1.Success? ==>
      && read(FormatOf(filetype).value) == Parsed(out.1.value)
      && out.0 == d.Put(filename, out.1.value)
      && out.0.Size() == (if filename in d.keys then d.Size() else d.Size() + 1)
  {
    match FormatOf(filetype)
    case None => (d, Failure(NotImplementedType(filetype)))
    case Some(format) =>
      match read(format)
      case Parsed(t) => (d.Put(filename, t), Success(t))
      case _ => (d, Failure(ReadFailed))
  }

  /** After a successful load the stored rows grow by the new frame's rows, less
      the rows of the frame it replaced when the name was already stored. */
  lemma LoadRowCount(d: Dict<string, Frame>, read: Reader, filename: string, filetype: string)
    requires d.Valid()
    requires Load(d, read, filename, filetype).1.Success?
    ensures var t := Load(d, read, filename, filetype).1.value;
      TotalRows(Load(d, read, filename, filetype).0.Values()) ==
        if filename in d.keys then TotalRows(d.Values()) - |d.entries[filename].rows| + |t.rows|
        else TotalRows(d.Values()) + |t.rows|
  {
    var t := Load(d, read, filename, filetype).1.value;
    if filename in d.keys {
      TotalRowsUpdate(d.Values(), d.IndexOf(filename), t);
    } else {
      TotalRowsAppend(d.Values(), [t]);
    }
  }

  /** `aggregate_data` on the stored frames in insertion order: `StopIteration`
      (here `None`) when nothing is stored, the frame itself when there is one,
      and their concatenation otherwise; in every case the concatenation. */
  function Aggregate(frames: seq<Frame>): (r: Option<Frame>)
    ensures r.None? <==> frames == []
    ensures r.Some? ==> r.value == Concat(frames) && |r.value.rows| == TotalRows(frames)
    ensures r.Some? ==> RowsInOrder(frames, r.value)
  {
    ConcatRowsInOrder(frames);
    if |frames| > 1 then Some(Concat(frames))
    else if |frames| == 1 then
      assert frames == [frames[0]];
      ConcatSingleton(frames[0]);
      Some(frames[0])
    else None
  }

  /** `get_column_names`: nothing for an empty store, else the aggregate's columns. */
  function ColumnNames(frames: seq<Frame>): (r: seq<string>)
    ensures frames == [] ==> r == []
    ensures frames != [] ==> r == Concat(frames).columns
    ensures Distinct(r)
  {
    if frames != [] then Aggregate(frames).value.columns else []
  }

  /** `DataManager`: the uploaded frames, keyed by file name. */
  class DataManager {
    var dataframes: Dict<string, Frame>

    constructor()
      ensures dataframes == Empty()
    {
      dataframes := Empty();
    }

    /** `load_xlsx` (`format == Xlsx`) and `load_csv` (`format == Csv`). */
    method LoadAs(format: Format, read: Reader, filename: string) returns (r: Result<Frame, Error>)
      requires dataframes.Valid()
      modifies this
      ensures dataframes.Valid()
      ensures read(format).Parsed? ==>
        r == Success(read(format).frame) && dataframes == old(dataframes).Put(filename, read(format).frame)
      ensures !read(format).Parsed? ==> r == Failure(ReadFailed) && dataframes == old(dataframes)
    {
      var outcome := read(format);
      if !outcome.Parsed? {
        return Failure(ReadFailed);
      }
      dataframes := dataframes.Put(filename, outcome.frame);
      r := Success(outcome.frame);
    }

    /** `load_data` */
    method LoadData(read: Reader, filename: string, filetype: string) returns (r: Result<Frame, Error>)
      requires dataframes.Valid()
      modifies this
      ensures dataframes.Valid()
      ensures (dataframes, r) == Load(old(dataframes), read, filename, filetype)
    {
      if filetype == "xlsx" {
        r := LoadAs(Xlsx, read, filename);
      } else if filetype == "csv" {
        r := LoadAs(Csv, read, filename);
      } else {
        r := Failure(NotImplementedType(filetype));
      }
    }

    /** `aggregate_data` */
    function AggregateData(): Option<Frame>
      reads this
      requires dataframes.Valid()
    {
      Aggregate(dataframes.Values())
    }

    /** `get_column_names` */
    function GetColumnNames(): seq<string>
      reads this
      requires dataframes.Valid()
    {
      ColumnNames(dataframes.Values())
    }
  }

  // ------------------------------------------------------------- upload handler

  /** One uploaded file: its name and the decoder applied to its contents. */
  datatype Upload = Upload(filename: string, read: Reader)

  /** What `handle_upload` shows: the "No files uploaded" notice or a table of
      the records of the aggregated frame. */
  datatype UploadView = NoFilesUploaded | Preview(records: Frame)

  /**
   * The store after `handle_upload`'s loop over `uploads`, and the error that
   * stopped it, if any. Each upload is dispatched by `UploadFileType`; a read
   * that raises ends the loop with the earlier uploads already stored.
   */
  function LoadUploads(d: Dict<string, Frame>, uploads: seq<Upload>): (r: (Dict<string, Frame>, Option<Error>))
    requires d.Valid()
    ensures r.0.Valid()
    ensures r.1.Some? ==> r.1.value == ReadFailed
    decreases |uploads|
  {
    if uploads == [] then (d, None)
    else
      var u := uploads[0];
      var step := Load(d, u.read, u.filename, UploadFileType(u.filename));
      if step.1.Failure? then (step.0, Some(step.1.error))
      else LoadUploads(step.0, uploads[1..])
  }

  /** Every key stored before the loop keeps its position, and a loop that
      raises nothing stores every upload under its own file name. */
  lemma {:induction false} LoadUploadsStores(d: Dict<string, Frame>, uploads: seq<Upload>)
    requires d.Valid()
    ensures var r := LoadUploads(d, uploads);
      && |d.keys| <= |r.0.keys| && (forall i :: 0 <= i < |d.keys| ==> r.0.keys[i] == d.keys[i])
      && (r.1.None? ==> forall i :: 0 <= i < |uploads| ==> uploads[i].filename in r.0.entries)
    decreases |uploads|
  {
    if uploads != [] {
      var u := uploads[0];
      var step := Load(d, u.read, u.filename, UploadFileType(u.filename));
      if step.1.Success? {
        var r := LoadUploads(step.0, uploads[1..]);
        LoadUploadsStores(step.0, uploads[1..]);
        if r.1.None? {
          forall i | 0 <= i < |uploads| ensures uploads[i].filename in r.0.entries {
            if i == 0 {
              var j := step.0.IndexOf(u.filename);
              assert r.0.keys[j] == u.filename;
            } else {
              assert uploads[i] == uploads[1..][i - 1];
            }
          }
        }
      }
    }
  }

  /** What the decoder `handle_upload` picks for `u` yields. */
  function ReadOf(u: Upload): ReadOutcome {
    u.read(FormatOf(UploadFileType(u.filename)).value)
  }

  /** Whether the decoder `handle_upload` picks for `u` fails. */
  predicate ReadFails(u: Upload) {
    !ReadOf(u).Parsed?
  }

  /** No later upload carries the file name of upload `i`. */
  predicate LastWithName(uploads: seq<Upload>, i: nat)
    requires i < |uploads|
  {
    forall j :: i < j < |uploads| ==> uploads[j].filename != uploads[i].filename
  }

  /** A loop that raises nothing stores, under each file name, the frame
      decoded from the last upload carrying that name. */
  lemma {:induction false} LoadUploadsLastWins(d: Dict<string, Frame>, uploads: seq<Upload>)
    requires d.Valid()
    ensures var r := LoadUploads(d, uploads);
      r.1.None? ==> forall i :: 0 <= i < |uploads| && LastWithName(uploads, i) ==>
        uploads[i].filename in r.0.entries && ReadOf(uploads[i]) == Parsed(r.0.entries[uploads[i].filename])
    decreases |uploads|
  {
    if uploads != [] {
      var u := uploads[0];
      var step := Load(d, u.read, u.filename, UploadFileType(u.filename));
      if step.1.Success? {
        var r := LoadUploads(step.0, uploads[1..]);
        LoadUploadsLastWins(step.0, uploads[1..]);
        if r.1.None? {
          forall i | 0 <= i < |uploads| && LastWithName(uploads, i)
            ensures uploads[i].filename in r.0.entries && ReadOf(uploads[i]) == Parsed(r.0.entries[uploads[i].filename])
          {
            if i == 0 {
              forall j | 0 <= j < |uploads[1..]| ensures uploads[1..][j].filename != u.filename {
                assert uploads[1..][j] == uploads[j + 1];
              }
              LoadUploadsLeaves(step.0, uploads[1..], u.filename);
            } else {
              assert uploads[i] == uploads[1..][i - 1];
              assert LastWithName(uploads[1..], i - 1) by {
                forall j | i - 1 < j < |uploads[1..]| ensures uploads[1..][j].filename != uploads[1..][i - 1].filename {
                  assert uploads[1..][j] == uploads[j + 1];
                }
              }
            }
          }
        }
      }
    }
  }

  /** Uploads under other file names leave a stored frame as it is. */
  lemma {:induction false} LoadUploadsLeaves(d: Dict<string, Frame>, uploads: seq<Upload>, name: string)
    requires d.Valid() && name in d.entries
    requires forall j :: 0 <= j < |uploads| ==> uploads[j].filename != name
    ensures name in LoadUploads(d, uploads).0.entries
    ensures LoadUploads(d, uploads).0.entries[name] == d.entries[name]
    decreases |uploads|
  {
    if uploads != [] {
      var u := uploads[0];
      var step := Load(d, u.read, u.filename, UploadFileType(u.filename));
      if step.1.Success? {
        forall j | 0 <= j < |uploads[1..]| ensures uploads[1..][j].filename != name {
          assert uploads[1..][j] == uploads[j + 1];
        }
        LoadUploadsLeaves(step.0, uploads[1..], name);
      }
    }
  }

  /** When the uploads before `k` load and the read of upload `k` fails, the
      loop raises there and leaves the store as the loop over the uploads
      before `k` leaves it; the uploads after `k` are never read. */
  lemma {:induction false} LoadUploadsStopsAt(d: Dict<string, Frame>, uploads: seq<Upload>, k: nat)
    requires d.Valid() && k < |uploads|
    requires LoadUploads(d, uploads[..k]).1.None? && ReadFails(uploads[k])
    ensures LoadUploads(d, uploads) == (LoadUploads(d, uploads[..k]).0, Some(ReadFailed))
    decreases k
  {
    var u := uploads[0];
    var step := Load(d, u.read, u.filename, UploadFileType(u.filename));
    if k == 0 {
      assert uploads[..0] == [];
    } else {
      PrefixTail(uploads, k);
      assert step.1.Success?;
      assert LoadUploads(d, uploads[..k]) == LoadUploads(step.0, uploads[1..][..k - 1]);
      assert uploads[1..][k - 1] == uploads[k];
      LoadUploadsStopsAt(step.0, uploads[1..], k - 1);
    }
  }

  /** Dropping the head of a prefix is taking a prefix of the tail. */
  lemma PrefixTail(uploads: seq<Upload>, n: nat)
    requires 0 < n <= |uploads|
    ensures uploads[..n][0] == uploads[0] && uploads[..n][1..] == uploads[1..][..n - 1]
  {
  }

  /** `UploadTab`'s `handle_upload` callback, on the tab's data manager. */
  method HandleUpload(dm: DataManager, uploads: seq<Upload>) returns (r: Result<UploadView, Error>)
    requires dm.dataframes.Valid()
    modifies dm
    ensures dm.dataframes.Valid()
    ensures dm.dataframes == LoadUploads(old(dm.dataframes), uploads).0
    ensures uploads == [] ==> r == Success(NoFilesUploaded)
    ensures uploads != [] && LoadUploads(old(dm.dataframes), uploads).1.None? ==>
      r == Success(Preview(Concat(dm.dataframes.Values())))
    ensures LoadUploads(old(dm.dataframes), uploads).1.Some? ==> r == Failure(ReadFailed)
  {
    if uploads == [] {
      return Success(NoFilesUploaded);
    }
    var i := 0;
    while i < |uploads|
      invariant 0 <= i <= |uploads|
      invariant dm.dataframes.Valid()
      invariant LoadUploads(old(dm.dataframes), uploads) == LoadUploads(dm.dataframes, uploads[i..])
    {
      var u := uploads[i];
      assert uploads[i..][1..] == uploads[i + 1..];
      var loaded := dm.LoadData(u.read, u.filename, UploadFileType(u.filename));
      if loaded.Failure? {
        return Failure(loaded.error);
      }
      i := i + 1;
    }
    LoadUploadsStores(old(dm.dataframes), uploads);
    assert uploads[0].filename in dm.dataframes.keys;
    var combined := dm.AggregateData();
    r := Success(Preview(combined.value));
  }

  // --------------------------------------------------------- tabs and sheets

  /** An instance of a tab class, holding the shared data manager it was given. */
  datatype DashTab = DashTab(kind: Kind, dataManager: DataManager)

  /** `create_tab(tab_name, data_manager)` on the registry `d`. */
  function CreateTab(d: Dict<string, Kind>, name: string, dm: DataManager): (r: Result<DashTab, Error>)
    ensures r.Failure? <==> name !in d.entries
    ensures r.Failure? ==> r.error == NotRegistered(name)
    ensures r.Success? ==> r.value.dataManager == dm
    ensures NamesMatch(d) && r.Success? ==> Name(r.value.kind) == name
  {
    match Lookup(d, name)
    case Failure(_) => Failure(NotRegistered(name))
    case Success(k) => Success(DashTab(k, dm))
  }

  /** The contents of a sheet's layout: each tab's own view (determined by its
      kind), the tab-type dropdown and the index the dropdown and button carry. */
  datatype SheetLayout = SheetLayout(tabs: seq<Kind>, options: seq<TabOption>, sheetIndex: int)

  /** `get_sheet_layout`: `IndexError` for an index that is at least the number
      of sheets or, by Python's list rules, below `-len`; otherwise the layout
      of the sheet the index names. */
  function SheetLayoutOf(sheets: seq<seq<DashTab>>, i: int, options: seq<TabOption>): (r: Result<SheetLayout, Error>)
    ensures r.Success? <==> -|sheets| <= i < |sheets|
    ensures r.Failure? ==> r.error == IndexError
    ensures r.Success? ==>
      var j := if i >= 0 then i else |sheets| + i;
      && |r.value.tabs| == |sheets[j]|
      && (forall k :: 0 <= k < |sheets[j]| ==> r.value.tabs[k] == sheets[j][k].kind)
      && r.value.options == options && r.value.sheetIndex == i
  {
    if i >= |sheets| then Failure(IndexError)
    else
      match PyIndex(i, |sheets|)
      case None => Failure(IndexError)
      case Some(j) => Success(SheetLayout(seq(|sheets[j]|, k requires 0 <= k < |sheets[j]| => sheets[j][k].kind), options, i))
  }

  /** `SheetManager` */
  class SheetManager {
    var sheets: seq<seq<DashTab>>

    constructor()
      ensures sheets == []
    {
      sheets := [];
    }

    /** `add_sheet` */
    method AddSheet()
      modifies this
      ensures sheets == old(sheets) + [[]]
    {
      sheets := sheets + [[]];
    }

    /** `add_tab_to_sheet` */
    method AddTabToSheet(sheetIndex: int, tab: DashTab) returns (r: Result<(), Error>)
      modifies this
      ensures AppendUpperChecked(old(sheets), sheetIndex, tab).None? ==>
        r == Failure(IndexError) && sheets == old(sheets)
      ensures AppendUpperChecked(old(sheets), sheetIndex, tab).Some? ==>
        r == Success(()) && sheets == AppendUpperChecked(old(sheets), sheetIndex, tab).value
    {
      if sheetIndex >= |sheets| {
        return Failure(IndexError);
      }
      var j := PyIndex(sheetIndex, |sheets|);
      if j.None? {
        return Failure(IndexError);
      }
      sheets := sheets[j.value := sheets[j.value] + [tab]];
      r := Success(());
    }

    /** `get_sheet_layout`: the layout of the indexed sheet, with the factory's
        options, or `IndexError`. */
    function GetSheetLayout(sheetIndex: int, factory: TabFactory): (r: Result<SheetLayout, Error>)
      reads this, factory
      requires factory.tabClasses.Valid()
      ensures r.Success? <==> -|sheets| <= sheetIndex < |sheets|
      ensures r.Success? ==> r.value.options == TabOptions(factory.tabClasses) && r.value.sheetIndex == sheetIndex
      ensures r.Success? ==>
        var j := if sheetIndex >= 0 then sheetIndex else |sheets| + sheetIndex;
        && |r.value.tabs| == |sheets[j]|
        && forall k :: 0 <= k < |sheets[j]| ==> r.value.tabs[k] == sheets[j][k].kind
      ensures r == SheetLayoutOf(sheets, sheetIndex, TabOptions(factory.tabClasses))
    {
      SheetLayoutOf(sheets, sheetIndex, factory.GetTabOptions())
    }
  }

  // ------------------------------------------------------------------- the app

  /** Which component fired the `update_layout` callback. */
  datatype Trigger =
    | NotTriggered
    | AddSheetButton
    | SheetButton(index: int)
    | AddTabButton(index: int)

  /** What `update_layout` returns: two empty outputs, or the navigation
      buttons' captions and the active sheet's layout. */
  datatype Page = BlankPage | Page(navigation: seq<string>, activeLayout: SheetLayout)

  /** The part of the app's state the callback changes. */
  datatype State = State(sheets: seq<seq<DashTab>>, active: int)

  /** The tail of `update_layout`: build the navigation and the active sheet's layout. */
  function Render(s: State, options: seq<TabOption>): (r: Result<Page, Error>)
    ensures r.Success? <==> -|s.sheets| <= s.active < |s.sheets|
    ensures r.Failure? ==> r.error == IndexError
    ensures r.Success? ==>
      && r.value.Page? && |r.value.navigation| == |s.sheets|
      && r.value.activeLayout.sheetIndex == s.active && r.value.activeLayout.options == options
    ensures r.Success? ==> r.value.navigation == SheetCaptions(|s.sheets|)
    ensures r.Success? ==>
      var j := if s.active >= 0 then s.active else |s.sheets| + s.active;
      && |r.value.activeLayout.tabs| == |s.sheets[j]|
      && forall k :: 0 <= k < |s.sheets[j]| ==> r.value.activeLayout.tabs[k] == s.sheets[j][k].kind
  {
    match SheetLayoutOf(s.sheets, s.active, options)
    case Failure(e) => Failure(e)
    case Success(layout) => Success(Page(SheetCaptions(|s.sheets|), layout))
  }

  /**
   * One run of `update_layout`: the new state and what the callback returns or
   * raises. `tabTypes` are the values of the tab-type dropdowns on the page;
   * the callback reads the first. Whatever was changed before a call raised
   * stays changed.
   */
  function Step(s: State, t: Trigger, tabTypes: seq<Option<string>>, registry: Dict<string, Kind>, dm: DataManager)
    : (r: (State, Result<Page, Error>))
    requires registry.Valid()
    ensures t == NotTriggered ==> r == (s, Success(BlankPage))
    ensures t == AddSheetButton ==> r.0 == State(s.sheets + [[]], |s.sheets|)
    ensures t.SheetButton? ==> r.0 == s.(active := t.index)
    ensures t.AddTabButton? ==> r.0.active == s.active
    ensures t.AddTabButton? && r.0.sheets != s.sheets ==>
      && |tabTypes| > 0 && tabTypes[0].Some? && tabTypes[0].value in registry.entries
      && -|s.sheets| <= t.index < |s.sheets|
      && AppendedAt(s.sheets, r.0.sheets, if t.index >= 0 then t.index else |s.sheets| + t.index,
                    DashTab(registry.entries[tabTypes[0].value], dm))
    ensures (&& t.AddTabButton? && |tabTypes| > 0 && tabTypes[0].Some? && tabTypes[0].value != ""
             && tabTypes[0].value in registry.entries && -|s.sheets| <= t.index < |s.sheets|) ==>
      AppendedAt(s.sheets, r.0.sheets, if t.index >= 0 then t.index else |s.sheets| + t.index,
                 DashTab(registry.entries[tabTypes[0].value], dm))
    ensures t.AddTabButton? && tabTypes == [] ==> r == (s, Failure(IndexError))
    ensures t.AddTabButton? && |tabTypes| > 0 && (tabTypes[0].None? || tabTypes[0].value == "") ==>
      r == (s, Render(s, TabOptions(registry)))
    ensures t == AddSheetButton ==> r.1.Success?
    ensures t != NotTriggered && r.1.Success? ==> r.1 == Render(r.0, TabOptions(registry))
  {
    var options := TabOptions(registry);
    match t
    case NotTriggered => (s, Success(BlankPage))
    case AddSheetButton =>
      var s' := State(s.sheets + [[]], |s.sheets + [[]]| - 1);
      (s', Render(s', options))
    case SheetButton(i) =>
      var s' := s.(active := i);
      (s', Render(s', options))
    case AddTabButton(i) =>
      if tabTypes == [] then (s, Failure(IndexError))
      else if tabTypes[0].None? || tabTypes[0].value == "" then (s, Render(s, options))
      else
        match CreateTab(registry, tabTypes[0].value, dm)
        case Failure(e) => (s, Failure(e))
        case Success(tab) =>
          match AppendUpperChecked(s.sheets, i, tab)
          case None => (s, Failure(IndexError))
          case Some(sheets') =>
            var s' := s.(sheets := sheets');
            (s', Render(s', options))
  }

  /** The triggers the rendered page can produce: the add-sheet button; a
      navigation button, one per existing sheet; the add-tab button of the
      shown sheet, whose single dropdown holds nothing or an offered type. */
  predicate CanTrigger(s: State, t: Trigger, tabTypes: seq<Option<string>>, registry: Dict<string, Kind>) {
    match t
    case NotTriggered => true
    case AddSheetButton => true
    case SheetButton(i) => 0 <= i < |s.sheets|
    case AddTabButton(i) =>
      && s.sheets != [] && i == s.active && |tabTypes| == 1
      && (tabTypes[0].Some? && tabTypes[0].value != "" ==> tabTypes[0].value in registry.entries)
  }

  /** Every trigger the page can produce keeps the active index on an existing
      sheet, and the callback then never raises. */
  lemma StepKeepsActiveInRange(s: State, t: Trigger, tabTypes: seq<Option<string>>, registry: Dict<string, Kind>, dm: DataManager)
    requires registry.Valid()
    requires ActiveInRange(|s.sheets|, s.active)
    requires CanTrigger(s, t, tabTypes, registry)
    ensures ActiveInRange(|Step(s, t, tabTypes, registry, dm).0.sheets|, Step(s, t, tabTypes, registry, dm).0.active)
    ensures Step(s, t, tabTypes, registry, dm).1.Success?
    ensures t != NotTriggered ==> Step(s, t, tabTypes, registry, dm).0.sheets != []
  {
  }

  /** Adding a tab of a type that is not registered raises `ValueError`
      and changes no sheet. */
  lemma StepUnknownType(s: State, i: int, name: string, registry: Dict<string, Kind>, dm: DataManager)
    requires registry.Valid()
    requires name != "" && name !in registry.entries
    ensures Step(s, AddTabButton(i), [Some(name)], registry, dm) == (s, Failure(NotRegistered(name)))
  {
  }

  /** Adding a sheet appends one empty sheet and makes it the active one. */
  lemma StepAddSheet(s: State, tabTypes: seq<Option<string>>, registry: Dict<string, Kind>, dm: DataManager)
    requires registry.Valid()
    ensures var s' := Step(s, AddSheetButton, tabTypes, registry, dm).0;
      s'.sheets == s.sheets + [[]] && s'.active == |s.sheets| && s'.sheets[s'.active] == []
  {
  }

  /** `DashApp`: the managers and the index of the active sheet. */
  class DashApp {
    const dataManager: DataManager
    const tabFactory: TabFactory
    const sheetManager: SheetManager
    var activeSheet: int

    ghost predicate Valid()
      reads dataManager, tabFactory
    {
      dataManager.dataframes.Valid() && tabFactory.tabClasses == Discovered()
    }

    function CurrentState(): State
      reads this, sheetManager
    {
      State(sheetManager.sheets, activeSheet)
    }

    /** `DashApp.__init__`: empty managers, active sheet 0, then tab discovery. */
    constructor()
      ensures Valid() && fresh(dataManager) && fresh(tabFactory) && fresh(sheetManager)
      ensures CurrentState() == State([], 0) && dataManager.dataframes == Empty()
    {
      dataManager := new DataManager();
      tabFactory := new TabFactory();
      sheetManager := new SheetManager();
      activeSheet := 0;
      new;
      tabFactory.DiscoverTabs();
    }

    /** `update_layout` */
    method UpdateLayout(trigger: Trigger, tabTypeValues: seq<Option<string>>) returns (r: Result<Page, Error>)
      requires Valid()
      modifies this, sheetManager
      ensures Valid()
      ensures (CurrentState(), r) == Step(old(CurrentState()), trigger, tabTypeValues, tabFactory.tabClasses, dataManager)
    {
      match trigger {
        case NotTriggered =>
          return Success(BlankPage);
        case AddSheetButton =>
          sheetManager.AddSheet();
          activeSheet := |sheetManager.sheets| - 1;
        case SheetButton(i) =>
          activeSheet := i;
        case AddTabButton(i) =>
          r := AddTabClicked(i, tabTypeValues);
          return;
      }
      r := RenderPage();
    }

    /** The add-tab branch of `update_layout`: creates the tab the first dropdown
        names and appends it to the sheet the button carries. */
    method AddTabClicked(i: int, tabTypeValues: seq<Option<string>>) returns (r: Result<Page, Error>)
      requires tabFactory.tabClasses.Valid()
      modifies sheetManager
      ensures (CurrentState(), r) == Step(old(CurrentState()), AddTabButton(i), tabTypeValues, tabFactory.tabClasses, dataManager)
    {
      if tabTypeValues == [] {
        return Failure(IndexError);
      }
      var tabType := tabTypeValues[0];
      if tabType.Some? && tabType.value != "" {
        var created := CreateTab(tabFactory.tabClasses, tabType.value, dataManager);
        if created.Failure? {
          return Failure(created.error);
        }
        var added := sheetManager.AddTabToSheet(i, created.value);
        if added.Failure? {
          return Failure(added.error);
        }
      }
      r := RenderPage();
    }

    /** The end of `update_layout`: the navigation and the active sheet's layout. */
    method RenderPage() returns (r: Result<Page, Error>)
      requires tabFactory.tabClasses.Valid()
      ensures r == Render(CurrentState(), TabOptions(tabFactory.tabClasses))
    {
      var layout := sheetManager.GetSheetLayout(activeSheet, tabFactory);
      if layout.Failure? {
        return Failure(layout.error);
      }
      r := Success(Page(SheetCaptions(|sheetManager.sheets|), layout.value));
    }
  }
}
