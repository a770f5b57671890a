/**
 * The second Streamlit front end (streamlit.py). Files are stored under their
 * names, sheets hold the names of tab classes, and each tab is instantiated
 * from its name whenever the active sheet is shown.
 */
module StreamlitNamed {
  import opened Outcomes
  import opened Strings
  import opened Dicts
  import opened Tables
  import opened Registry
  import opened Sheets

  /** What the operations of this front end raise. */
  datatype Error =
    | NotImplementedExtension(filename: string)  // load_data: NotImplementedError
    | ReadFailed                                 // the decoder raised
    | NotRegistered(name: string)                // create_tab: ValueError
    | IndexError                                 // a sheet index out of range

  // ---------------------------------------------------------------- DataManager

  /** `load_data`'s dispatch on the file name as given, case-sensitively:
      ".xlsx" first, then ".csv". */
  function FormatOfName(filename: string): (r: Option<Format>)
    ensures r == Some(Xlsx) <==> EndsWith(filename, ".xlsx")
    ensures r == Some(Csv) <==> !EndsWith(filename, ".xlsx") && EndsWith(filename, ".csv")
  {
    if EndsWith(filename, ".xlsx") then Some(Xlsx)
    else if EndsWith(filename, ".csv") then Some(Csv)
    else None
  }

  /**
   * `load_data` followed by `load_xlsx` or `load_csv`, on the store `d`: the
   * new store and what the call returns or raises. A name of another
   * extension raises before anything is read, a read that raises stores
   * nothing, and a successful read is stored under the file name, replacing
   * an earlier frame of that name in its old position.
   */
  function Load(d: Dict<string, Frame>, read: Reader, filename: string)
    : (out: (Dict<string, Frame>, Result<Frame, Error>))
    requires d.Valid()
    ensures out.0.Valid()
    ensures out.1.Failure? ==> out.0 == d
    ensures FormatOfName(filename).None? <==> out.1 == Failure(NotImplementedExtension(filename))
    ensures out.1.Success? <==> FormatOfName(filename).Some? && read(FormatOfName(filename).value).Parsed?
    ensures out.1.Success? ==>
      && read(FormatOfName(filename).value) == Parsed(out.1.value)
      && out.0 == d.Put(filename, out.1.value)
      && out.0.Size() == (if filename in d.keys then d.Size() else d.Size() + 1)
  {
    match FormatOfName(filename)
    case None => (d, Failure(NotImplementedExtension(filename)))
    case Some(format) =>
      match read(format)
      case Parsed(t) => (d.Put(filename, t), Success(t))
      case _ => (d, Failure(ReadFailed))
  }

  /** `aggregate_data`: the empty frame when nothing is stored, and otherwise
      the concatenation of every stored frame, even a single one: its rows are
      those of the stored frames, frame after frame in insertion order. */
  function Aggregate(frames: seq<Frame>): (r: Frame)
    ensures r == Concat(frames)
    ensures frames == [] ==> r == EMPTY_FRAME
    ensures |r.rows| == TotalRows(frames)
    ensures RowsInOrder(frames, r)
  {
    ConcatRowsInOrder(frames);
    if frames == [] then EMPTY_FRAME else Concat(frames)
  }

  /** `get_column_names`: no names when the aggregate is empty in pandas' sense
      (no columns or no rows), and otherwise its columns, none twice. */
  function ColumnNames(frames: seq<Frame>): (r: seq<string>)
    ensures IsEmpty(Aggregate(frames)) ==> r == []
    ensures !IsEmpty(Aggregate(frames)) ==> r == Concat(frames).columns
    ensures Distinct(r)
  {
    var df := Aggregate(frames);
    if !IsEmpty(df) then df.columns else []
  }

  /** Stored frames that all lack rows give no column names, whatever their columns. */
  lemma ColumnNamesWithoutRows(frames: seq<Frame>)
    requires forall k :: 0 <= k < |frames| ==> frames[k].rows == []
    ensures ColumnNames(frames) == []
  {
    assert TotalRows(frames) == 0 by {
      RowlessTotal(frames);
    }
  }

  lemma {:induction false} RowlessTotal(frames: seq<Frame>)
    requires forall k :: 0 <= k < |frames| ==> frames[k].rows == []
    ensures TotalRows(frames) == 0
  {
    if frames != [] {
      RowlessTotal(frames[1..]);
    }
  }

  /** `DataManager`: the uploaded frames, keyed by file name. */
  class DataManager {
    var dataframes: Dict<string, Frame>

    constructor()
      ensures dataframes == Empty()
    {
      dataframes := Empty();
    }

    /** `load_xlsx` (`format == Xlsx`) and `load_csv` (`format == Csv`). */
    method LoadAs(format: Format, read: Reader, filename: string) returns (r: Result<Frame, Error>)
      requires dataframes.Valid()
      modifies this
      ensures dataframes.Valid()
      ensures read(format).Parsed? ==>
        r == Success(read(format).frame) && dataframes == old(dataframes).Put(filename, read(format).frame)
      ensures !read(format).Parsed? ==> r == Failure(ReadFailed) && dataframes == old(dataframes)
    {
      var outcome := read(format);
      if !outcome.Parsed? {
        return Failure(ReadFailed);
      }
      dataframes := dataframes.Put(filename, outcome.frame);
      r := Success(outcome.frame);
    }

    /** `load_data` */
    method LoadData(read: Reader, filename: string) returns (r: Result<Frame, Error>)
      requires dataframes.Valid()
      modifies this
      ensures dataframes.Valid()
      ensures (dataframes, r) == Load(old(dataframes), read, filename)
    {
      if EndsWith(filename, ".xlsx") {
        r := LoadAs(Xlsx, read, filename);
      } else if EndsWith(filename, ".csv") {
        r := LoadAs(Csv, read, filename);
      } else {
        r := Failure(NotImplementedExtension(filename));
      }
    }

    /** `aggregate_data` */
    function AggregateData(): Frame
      reads this
      requires dataframes.Valid()
    {
      Aggregate(dataframes.Values())
    }

    /** `get_column_names` */
    function GetColumnNames(): seq<string>
      reads this
      requires dataframes.Valid()
    {
      ColumnNames(dataframes.Values())
    }
  }

  // -------------------------------------------------------------- upload tab

  /** A file the uploader widget holds: its name and the decoder applied to its bytes. */
  datatype UploadedFile = UploadedFile(name: string, read: Reader)

  /**
   * The loop of `UploadTab.render` over the files its uploader holds: each is
   * loaded in turn until a load raises. The uploader does not filter by
   * extension, so a name that is neither ".xlsx" nor ".csv" reaches
   * `load_data` and raises. The new store and the error raised, if any.
   */
  function UploadFiles(d: Dict<string, Frame>, files: seq<UploadedFile>): (r: (Dict<string, Frame>, Option<Error>))
    requires d.Valid()
    ensures r.0.Valid()
    ensures forall k :: k in d.entries ==> k in r.0.entries
    ensures r.1.None? ==> forall i :: 0 <= i < |files| ==> files[i].name in r.0.entries
    decreases |files|
  {
    if files == [] then (d, None)
    else
      var step := Load(d, files[0].read, files[0].name);
      if step.1.Failure? then (step.0, Some(step.1.error))
      else
        var r := UploadFiles(step.0, files[1..]);
        assert r.1.None? ==> forall i :: 0 <= i < |files| ==> files[i].name in r.0.entries by {
          if r.1.None? {
            forall i | 0 <= i < |files| ensures files[i].name in r.0.entries {
              if i > 0 {
                assert files[i] == files[1..][i - 1];
              }
            }
          }
        }
        r
  }

  /** Whether `load_data` stores `f`: a supported extension whose decoder succeeds. */
  predicate Loads(f: UploadedFile) {
    FormatOfName(f.name).Some? && f.read(FormatOfName(f.name).value).Parsed?
  }

  /** The frame `load_data` stores for `f`. */
  function FrameOf(f: UploadedFile): Frame
    requires Loads(f)
  {
    f.read(FormatOfName(f.name).value).frame
  }

  /** The loop raises nothing iff every file loads, whatever is stored. */
  lemma {:induction false} UploadFilesSucceeds(d: Dict<string, Frame>, files: seq<UploadedFile>)
    requires d.Valid()
    ensures UploadFiles(d, files).1.None? <==> forall i :: 0 <= i < |files| ==> Loads(files[i])
    decreases |files|
  {
    if files != [] {
      var step := Load(d, files[0].read, files[0].name);
      assert step.1.Success? <==> Loads(files[0]);
      if step.1.Success? {
        var rest := UploadFiles(step.0, files[1..]).1;
        assert UploadFiles(d, files).1 == rest;
        UploadFilesSucceeds(step.0, files[1..]);
        if rest.None? {
          forall i | 0 <= i < |files| ensures Loads(files[i]) {
            if i > 0 {
              assert files[i] == files[1..][i - 1];
            }
          }
        } else {
          var j :| 0 <= j < |files[1..]| && !Loads(files[1..][j]);
          assert files[j + 1] == files[1..][j];
        }
      }
    }
  }

  /** A file of another extension makes the loop raise `NotImplementedError`
      or an earlier read error, whatever is stored, so every run that shows the
      upload tab while the uploader holds that file raises. */
  lemma UnsupportedFileRaises(d: Dict<string, Frame>, files: seq<UploadedFile>, k: nat)
    requires d.Valid()
    requires k < |files| && FormatOfName(files[k].name).None?
    ensures UploadFiles(d, files).1.Some?
  {
    UploadFilesSucceeds(d, files);
    assert !Loads(files[k]);
  }

  /** The map `m` after assigning every file's frame under its name, in order. */
  function Assigned(m: map<string, Frame>, files: seq<UploadedFile>): map<string, Frame>
    requires forall i :: 0 <= i < |files| ==> Loads(files[i])
    decreases |files|
  {
    if files == [] then m else Assigned(m[files[0].name := FrameOf(files[0])], files[1..])
  }

  /** The files' names, in order. */
  function Names(files: seq<UploadedFile>): (ns: seq<string>)
    ensures |ns| == |files| && forall i :: 0 <= i < |files| ==> ns[i] == files[i].name
  {
    if files == [] then [] else [files[0].name] + Names(files[1..])
  }

  /** The assignments add exactly the files' names to the keys. */
  lemma {:induction false} AssignedKeys(m: map<string, Frame>, files: seq<UploadedFile>, n: string)
    requires forall i :: 0 <= i < |files| ==> Loads(files[i])
    ensures n in Assigned(m, files) <==> n in m || n in Names(files)
    decreases |files|
  {
    if files != [] {
      AssignedKeys(m[files[0].name := FrameOf(files[0])], files[1..], n);
    }
  }

  /** Off the files' names the assignments leave `m` as it was. */
  lemma {:induction false} AssignedOff(m: map<string, Frame>, files: seq<UploadedFile>, n: string)
    requires forall i :: 0 <= i < |files| ==> Loads(files[i])
    requires n in m && n !in Names(files)
    ensures n in Assigned(m, files) && Assigned(m, files)[n] == m[n]
    decreases |files|
  {
    if files != [] {
      AssignedOff(m[files[0].name := FrameOf(files[0])], files[1..], n);
    }
  }

  /** On the files' names the result does not depend on `m`. */
  lemma {:induction false} AssignedOn(m: map<string, Frame>, m2: map<string, Frame>, files: seq<UploadedFile>, n: string)
    requires forall i :: 0 <= i < |files| ==> Loads(files[i])
    requires n in Names(files)
    ensures n in Assigned(m, files) && n in Assigned(m2, files)
    ensures Assigned(m, files)[n] == Assigned(m2, files)[n]
    decreases |files|
  {
    var f := files[0];
    var a, b := m[f.name := FrameOf(f)], m2[f.name := FrameOf(f)];
    if n in Names(files[1..]) {
      AssignedOn(a, b, files[1..], n);
    } else {
      assert n == f.name;
      AssignedOff(a, files[1..], n);
      AssignedOff(b, files[1..], n);
    }
  }

  /** Assigning the same files twice is assigning them once. */
  lemma AssignedTwice(m: map<string, Frame>, files: seq<UploadedFile>)
    requires forall i :: 0 <= i < |files| ==> Loads(files[i])
    ensures Assigned(Assigned(m, files), files) == Assigned(m, files)
  {
    var once := Assigned(m, files);
    forall n | n in once || n in Assigned(once, files)
      ensures n in once && n in Assigned(once, files) && Assigned(once, files)[n] == once[n]
    {
      AssignedKeys(m, files, n);
      AssignedKeys(once, files, n);
      if n in Names(files) {
        AssignedOn(once, m, files, n);
      } else {
        AssignedOff(once, files, n);
      }
    }
  }

  /** A loop that raises nothing assigns the files' frames under their names;
      when every name is already stored the key order does not change. */
  lemma {:induction false} UploadFilesAssigns(d: Dict<string, Frame>, files: seq<UploadedFile>)
    requires d.Valid()
    requires forall i :: 0 <= i < |files| ==> Loads(files[i])
    ensures UploadFiles(d, files).0.entries == Assigned(d.entries, files)
    ensures (forall i :: 0 <= i < |files| ==> files[i].name in d.entries) ==> UploadFiles(d, files).0.keys == d.keys
    decreases |files|
  {
    if files != [] {
      var f := files[0];
      var step := Load(d, f.read, f.name);
      assert forall i :: 1 <= i < |files| ==> files[i] == files[1..][i - 1];
      UploadFilesAssigns(step.0, files[1..]);
    }
  }

  /** Unlike new.py, a rerun that shows the upload tab while the uploader
      still holds the same files leaves the store as the first run left it:
      every name is assigned again with the same frame. */
  lemma UploadRerunIdempotent(d: Dict<string, Frame>, files: seq<UploadedFile>)
    requires d.Valid()
    requires UploadFiles(d, files).1.None?
    ensures UploadFiles(UploadFiles(d, files).0, files) == UploadFiles(d, files)
  {
    var first := UploadFiles(d, files).0;
    UploadFilesSucceeds(d, files);
    UploadFilesSucceeds(first, files);
    UploadFilesAssigns(d, files);
    UploadFilesAssigns(first, files);
    AssignedTwice(d.entries, files);
  }

  /** The loop of `UploadTab.render` of streamlit.py on the tab's data manager. */
  method LoadFiles(dm: DataManager, files: seq<UploadedFile>) returns (err: Option<Error>)
    requires dm.dataframes.Valid()
    modifies dm
    ensures dm.dataframes.Valid()
    ensures (dm.dataframes, err) == UploadFiles(old(dm.dataframes), files)
  {
    ghost var spec := UploadFiles(dm.dataframes, files);
    assert files[0..] == files;
    var i := 0;
    while i < |files|
      invariant 0 <= i <= |files|
      invariant dm.dataframes.Valid()
      invariant spec == UploadFiles(dm.dataframes, files[i..])
    {
      assert files[i..][1..] == files[i + 1..];
      var loaded := dm.LoadData(files[i].read, files[i].name);
      if loaded.Failure? {
        return Some(loaded.error);
      }
      i := i + 1;
    }
    err := None;
  }

  /** `UploadTab.render` of streamlit.py: the loop, then the aggregate it previews. */
  method RenderUpload(dm: DataManager, files: seq<UploadedFile>) returns (r: Result<Frame, Error>)
    requires dm.dataframes.Valid()
    modifies dm
    ensures dm.dataframes.Valid()
    ensures dm.dataframes == UploadFiles(old(dm.dataframes), files).0
    ensures UploadFiles(old(dm.dataframes), files).1.Some? ==>
      r == Failure(UploadFiles(old(dm.dataframes), files).1.value)
    ensures UploadFiles(old(dm.dataframes), files).1.None? ==> r == Success(Aggregate(dm.dataframes.Values()))
  {
    var err := LoadFiles(dm, files);
    if err.Some? {
      return Failure(err.value);
    }
    r := Success(dm.AggregateData());
  }

  // --------------------------------------------------------------------- tabs

  /**
   * `create_tab` for each name of a sheet in turn, as the active sheet is shown:
   * the classes, or `ValueError` for the first name that is not registered.
   */
  function Instantiate(d: Dict<string, Kind>, names: seq<string>): (r: Result<seq<Kind>, Error>)
    ensures r.Success? <==> forall i :: 0 <= i < |names| ==> names[i] in d.entries
    ensures r.Success? ==>
      |r.value| == |names| && forall i :: 0 <= i < |names| ==> r.value[i] == d.entries[names[i]]
    ensures r.Failure? ==>
      exists i :: 0 <= i < |names| && names[i] !in d.entries && r.error == NotRegistered(names[i])
                  && forall j :: 0 <= j < i ==> names[j] in d.entries
    decreases |names|
  {
    if names == [] then Success([])
    else
      match Lookup(d, names[0])
      case Failure(_) => Failure(NotRegistered(names[0]))
      case Success(k) =>
        match Instantiate(d, names[1..])
        case Failure(e) =>
          assert exists i :: 0 <= i < |names| && names[i] !in d.entries && e == NotRegistered(names[i])
                             && forall j :: 0 <= j < i ==> names[j] in d.entries by {
            var i :| 0 <= i < |names[1..]| && names[1..][i] !in d.entries && e == NotRegistered(names[1..][i])
                     && forall j :: 0 <= j < i ==> names[1..][j] in d.entries;
            assert forall j :: 0 <= j < i + 1 ==> names[j] in d.entries by {
              forall j | 0 <= j < i + 1 ensures names[j] in d.entries {
                if j > 0 {
                  assert names[j] == names[1..][j - 1];
                }
              }
            }
          }
          Failure(e)
        case Success(ks) => Success([k] + ks)
  }

  /** With matching names, each instance is of the class its name names. */
  lemma InstantiateNames(d: Dict<string, Kind>, names: seq<string>)
    requires NamesMatch(d)
    requires Instantiate(d, names).Success?
    ensures forall i :: 0 <= i < |names| ==> Name(Instantiate(d, names).value[i]) == names[i]
  {
    forall i | 0 <= i < |names| ensures Name(Instantiate(d, names).value[i]) == names[i] {
      assert Lookup(d, names[i]).Success?;
    }
  }

  /** The loop of `_render_active_sheet` that creates each tab of the sheet in order. */
  method CreateTabs(factory: TabFactory, names: seq<string>) returns (r: Result<seq<Kind>, Error>)
    ensures r == Instantiate(factory.tabClasses, names)
  {
    var kinds: seq<Kind> := [];
    var i := 0;
    while i < |names|
      invariant 0 <= i <= |names|
      invariant |kinds| == i
      invariant forall j :: 0 <= j < i ==> names[j] in factory.tabClasses.entries
      invariant forall j :: 0 <= j < i ==> kinds[j] == factory.tabClasses.entries[names[j]]
    {
      var found := factory.LookupClass(names[i]);
      if found.Failure? {
        var expected := Instantiate(factory.tabClasses, names);
        assert expected.Failure?;
        var w :| 0 <= w < |names| && names[w] !in factory.tabClasses.entries && expected.error == NotRegistered(names[w])
                 && forall j :: 0 <= j < w ==> names[j] in factory.tabClasses.entries;
        assert w == i;
        return Failure(NotRegistered(names[i]));
      }
      kinds := kinds + [found.value];
      i := i + 1;
    }
    assert Instantiate(factory.tabClasses, names).Success?;
    assert Instantiate(factory.tabClasses, names).value == kinds;
    r := Success(kinds);
  }

  // ----------------------------------------------------------------- sheets

  /** `SheetManager`: each sheet lists the names of its tabs. */
  class SheetManager {
    var sheets: seq<seq<string>>

    constructor()
      ensures sheets == []
    {
      sheets := [];
    }

    /** `add_sheet` */
    method AddSheet()
      modifies this
      ensures sheets == old(sheets) + [[]]
    {
      sheets := sheets + [[]];
    }

    /** `add_tab_to_sheet`: an index below 0 or at least the number of sheets raises. */
    method AddTabToSheet(sheetIndex: int, tabName: string) returns (r: Result<(), Error>)
      modifies this
      ensures AppendRangeChecked(old(sheets), sheetIndex, tabName).None? ==>
        r == Failure(IndexError) && sheets == old(sheets)
      ensures AppendRangeChecked(old(sheets), sheetIndex, tabName).Some? ==>
        r == Success(()) && sheets == AppendRangeChecked(old(sheets), sheetIndex, tabName).value
    {
      if sheetIndex < 0 || sheetIndex >= |sheets| {
        return Failure(IndexError);
      }
      sheets := sheets[sheetIndex := sheets[sheetIndex] + [tabName]];
      r := Success(());
    }

    /** `get_sheet_tabs`: a plain list subscript, so a negative index counts from
        the end and one outside `[-len, len)` raises. */
    function GetSheetTabs(sheetIndex: int): (r: Result<seq<string>, Error>)
      reads this
      ensures r.Success? <==> -|sheets| <= sheetIndex < |sheets|
      ensures r.Failure? ==> r.error == IndexError
      ensures r.Success? ==> r.value == sheets[if sheetIndex >= 0 then sheetIndex else |sheets| + sheetIndex]
    {
      match PyIndex(sheetIndex, |sheets|)
      case None => Failure(IndexError)
      case Some(j) => Success(sheets[j])
    }
  }

  // ------------------------------------------------------------------- the app

  /** The one widget a run of the script reacts to. */
  datatype Click =
    | NoClick
    | AddSheetClick
    | SheetClick(index: int)
    | AddTabClick(chosen: string)   // with the tab type chosen in the select box

  /** The tabs part of the active sheet: the placeholder, or each tab's label
      and the class instantiated for it. */
  datatype TabsPane = NoTabsYet | TabsShown(labels: seq<string>, kinds: seq<Kind>)

  /** What `_render_active_sheet` shows. */
  datatype SheetPane =
    | NoSheetsYet
    | InvalidActiveIndex
    | ActiveSheet(number: int, tabTypes: seq<string>, tabs: TabsPane)

  /** What a run shows: the sheet buttons' captions and the active sheet. */
  datatype Page = Page(navigation: seq<string>, pane: SheetPane)

  /** The session state a run reads and changes. */
  datatype State = State(sheets: seq<seq<string>>, active: int)

  /** The state the app keeps between runs: the active index is in range and
      every tab name on a sheet is a registered class. */
  predicate ValidState(s: State, registry: Dict<string, Kind>) {
    && ActiveInRange(|s.sheets|, s.active)
    && forall a, x :: 0 <= a < |s.sheets| && 0 <= x < |s.sheets[a]| ==> s.sheets[a][x] in registry.entries
  }

  /** `_render_active_sheet` without a click on its add-tab button. */
  function Render(s: State, registry: Dict<string, Kind>): Result<Page, Error>
  {
    var navigation := SheetCaptions(|s.sheets|);
    if s.sheets == [] then Success(Page(navigation, NoSheetsYet))
    else if s.active < 0 || s.active >= |s.sheets| then Success(Page(navigation, InvalidActiveIndex))
    else
      var tabs := s.sheets[s.active];
      if tabs == [] then Success(Page(navigation, ActiveSheet(s.active + 1, registry.keys, NoTabsYet)))
      else
        match Instantiate(registry, tabs)
        case Failure(e) => Failure(e)
        case Success(kinds) => Success(Page(navigation, ActiveSheet(s.active + 1, registry.keys, TabsShown(tabs, kinds))))
  }

  /** What `_render_active_sheet` shows: `ValueError` iff the active sheet
      holds a name that is not registered; otherwise the navigation, the
      no-sheets text, the invalid-index message, or the active sheet with its
      number, the offered names and each tab's label and class. */
  lemma RenderShows(s: State, registry: Dict<string, Kind>)
    ensures var r := Render(s, registry);
      && (r.Success? <==>
            !(0 <= s.active < |s.sheets|) || forall x :: 0 <= x < |s.sheets[s.active]| ==> s.sheets[s.active][x] in registry.entries)
      && (r.Failure? ==> r.error.NotRegistered?)
    ensures var r := Render(s, registry);
      r.Success? ==>
        && r.value.navigation == SheetCaptions(|s.sheets|)
        && (r.value.pane == NoSheetsYet <==> s.sheets == [])
        && (r.value.pane == InvalidActiveIndex <==> s.sheets != [] && !(0 <= s.active < |s.sheets|))
    ensures var r := Render(s, registry);
      r.Success? && r.value.pane.ActiveSheet? ==>
        && 0 <= s.active < |s.sheets|
        && r.value.pane.number == s.active + 1 && r.value.pane.tabTypes == registry.keys
        && (r.value.pane.tabs == NoTabsYet <==> s.sheets[s.active] == [])
        && (r.value.pane.tabs.TabsShown? ==>
              && r.value.pane.tabs.labels == s.sheets[s.active]
              && |r.value.pane.tabs.kinds| == |s.sheets[s.active]|
              && forall i :: 0 <= i < |s.sheets[s.active]| ==>
                   r.value.pane.tabs.kinds[i] == registry.entries[s.sheets[s.active][i]])
  {
  }

  /**
   * One run of `StreamlitApp.run`: `_render_sheet_controls` (add a sheet and
   * make it active, or make a clicked sheet active), then
   * `_render_active_sheet`, whose add-tab button is shown only with a valid
   * active sheet and appends the chosen name to it before the script reruns.
   */
  function Step(s: State, c: Click, registry: Dict<string, Kind>): (r: (State, Result<Page, Error>))
    ensures c == NoClick ==> r.0 == s
    ensures c == AddSheetClick ==> r.0 == State(s.sheets + [[]], |s.sheets|)
    ensures c.SheetClick? ==> r.0.sheets == s.sheets
    ensures c.SheetClick? && 0 <= c.index < |s.sheets| ==> r.0 == s.(active := c.index)
    ensures c.SheetClick? && !(0 <= c.index < |s.sheets|) ==> r.0 == s
    ensures c.AddTabClick? ==> r.0.active == s.active
    ensures c.AddTabClick? && 0 <= s.active < |s.sheets| ==> AppendedAt(s.sheets, r.0.sheets, s.active, c.chosen)
    ensures c.AddTabClick? && !(0 <= s.active < |s.sheets|) ==> r.0.sheets == s.sheets
    ensures r.1 == Render(r.0, registry)
  {
    var s1 :=
      match c
      case AddSheetClick => State(s.sheets + [[]], |s.sheets + [[]]| - 1)
      case SheetClick(i) => if 0 <= i < |s.sheets| then s.(active := i) else s
      case _ => s;
    if c.AddTabClick? then
      match AppendRangeChecked(s1.sheets, s1.active, c.chosen)
      case None => (s1, Render(s1, registry))
      case Some(sheets') =>
        var s2 := s1.(sheets := sheets');
        (s2, Render(s2, registry))
    else (s1, Render(s1, registry))
  }

  /** Every run keeps the session state valid, given that the select box
      offers registered names only. */
  lemma StepKeepsValid(s: State, c: Click, registry: Dict<string, Kind>)
    requires ValidState(s, registry)
    requires c.AddTabClick? ==> c.chosen in registry.entries
    ensures ValidState(Step(s, c, registry).0, registry)
  {
    if c.AddTabClick? && AppendRangeChecked(s.sheets, s.active, c.chosen).Some? {
      var t := AppendRangeChecked(s.sheets, s.active, c.chosen).value;
      forall a, x | 0 <= a < |t| && 0 <= x < |t[a]| ensures t[a][x] in registry.entries {
        if a == s.active && x < |s.sheets[a]| {
          assert t[a][x] == (s.sheets[a] + [c.chosen])[x];
        }
      }
    }
  }

  /** From a valid state no run raises and none reports an invalid active index. */
  lemma StepNeverRaises(s: State, c: Click, registry: Dict<string, Kind>)
    requires ValidState(s, registry)
    requires c.AddTabClick? ==> c.chosen in registry.entries
    ensures Step(s, c, registry).1.Success?
    ensures Step(s, c, registry).1.value.pane != InvalidActiveIndex
  {
    StepKeepsValid(s, c, registry);
    var t := Step(s, c, registry).0;
    if t.sheets != [] {
      assert forall x :: 0 <= x < |t.sheets[t.active]| ==> t.sheets[t.active][x] in registry.entries;
    }
  }

  /** Adding a sheet appends one empty sheet and makes it active; adding a tab
      appends the chosen name to the active sheet and changes no other sheet. */
  lemma StepEffects(s: State, c: Click, registry: Dict<string, Kind>)
    requires ValidState(s, registry)
    ensures c == AddSheetClick ==> Step(s, c, registry).0 == State(s.sheets + [[]], |s.sheets|)
    ensures c.AddTabClick? && s.sheets != [] ==>
      var t := Step(s, c, registry).0;
      t.active == s.active && AppendedAt(s.sheets, t.sheets, s.active, c.chosen)
  {
  }

  /** `StreamlitApp` and its session state. */
  class StreamlitApp {
    const dataManager: DataManager
    const tabFactory: TabFactory
    const sheetManager: SheetManager
    var activeSheet: int

    ghost predicate Valid()
      reads dataManager, tabFactory
    {
      tabFactory.tabClasses == Discovered() && dataManager.dataframes.Valid()
    }

    function CurrentState(): State
      reads this, sheetManager
    {
      State(sheetManager.sheets, activeSheet)
    }

    /** `StreamlitApp.__init__` on the first run: fresh managers, active sheet 0. */
    constructor()
      ensures Valid() && fresh(dataManager) && fresh(tabFactory) && fresh(sheetManager)
      ensures CurrentState() == State([], 0) && dataManager.dataframes == Empty()
    {
      var factory := NewDiscoveredFactory();
      dataManager := new DataManager();
      tabFactory := factory;
      sheetManager := new SheetManager();
      activeSheet := 0;
    }

    /** `_set_active_sheet` */
    method SetActiveSheet(sheetIndex: int)
      modifies this
      ensures activeSheet == sheetIndex
    {
      activeSheet := sheetIndex;
    }

    /** `run`: the sheet controls, then the active sheet. A click on the
        add-tab button appends to the active sheet and reruns the script, which
        then shows the new state. */
    method Run(c: Click) returns (r: Result<Page, Error>)
      requires Valid()
      modifies this, sheetManager
      ensures Valid()
      ensures (CurrentState(), r) == Step(old(CurrentState()), c, tabFactory.tabClasses)
    {
      ApplyClick(c);
      r := RenderActiveSheet();
    }

    /** The part of `run` that changes the session state: the sheet controls,
        then the add-tab button of a valid active sheet. */
    method ApplyClick(c: Click)
      modifies this, sheetManager
      ensures CurrentState() == Step(old(CurrentState()), c, tabFactory.tabClasses).0
    {
      // _render_sheet_controls
      match c {
        case AddSheetClick =>
          sheetManager.AddSheet();
          SetActiveSheet(|sheetManager.sheets| - 1);
        case SheetClick(i) =>
          if 0 <= i < |sheetManager.sheets| {
            SetActiveSheet(i);
          }
        case _ =>
      }
      // _render_active_sheet: the add-tab button exists only for a valid active sheet
      if c.AddTabClick? && 0 <= activeSheet < |sheetManager.sheets| {
        var added := sheetManager.AddTabToSheet(activeSheet, c.chosen);
      }
    }

    /** `_render_active_sheet` without a click on its add-tab button. */
    method RenderActiveSheet() returns (r: Result<Page, Error>)
      requires tabFactory.tabClasses.Valid()
      ensures r == Render(CurrentState(), tabFactory.tabClasses)
    {
      var navigation := SheetCaptions(|sheetManager.sheets|);
      if sheetManager.sheets == [] {
        return Success(Page(navigation, NoSheetsYet));
      }
      if activeSheet < 0 || activeSheet >= |sheetManager.sheets| {
        return Success(Page(navigation, InvalidActiveIndex));
      }
      var tabTypes := tabFactory.GetTabNames();
      assert tabTypes == tabFactory.tabClasses.keys;
      var currentTabs := sheetManager.sheets[activeSheet];
      if currentTabs == [] {
        return Success(Page(navigation, ActiveSheet(activeSheet + 1, tabTypes, NoTabsYet)));
      }
      var kinds := CreateTabs(tabFactory, currentTabs);
      if kinds.Failure? {
        return Failure(kinds.error);
      }
      r := Success(Page(navigation, ActiveSheet(activeSheet + 1, tabTypes, TabsShown(currentTabs, kinds.value))));
    }
  }
}
