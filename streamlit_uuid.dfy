/**
 * The first Streamlit front end (new.py). Every stored file and every tab gets
 * its own key from `uuid.uuid4()`; sheets hold tab objects; each run of the
 * script handles at most one click and then shows the active sheet.
 */
module StreamlitUuid {
  import opened Outcomes
  import opened Strings
  import opened Dicts
  import opened Tables
  import opened Registry
  import opened Sheets

  /** What the operations of this front end raise. */
  datatype Error =
    | ReadFailed                   // a decoder raised something other than the caught ImportError
    | NotRegistered(name: string)  // create_tab: ValueError
    | IndexError                   // add_tab_to_sheet: IndexError

  // ------------------------------------------------------------------ uuids

  /** A value of `uuid.uuid4()`, numbered in the order the values were drawn. */
  datatype Uuid = Uuid(serial: nat)

  /** The text `str(uuid)` stands for here: the serial in decimal. */
  function UuidText(u: Uuid): (s: string)
    ensures |s| >= 1
  {
    NatToString(u.serial)
  }

  /** Different identifiers have different texts. */
  lemma UuidTextInjective(u: Uuid, v: Uuid)
    requires UuidText(u) == UuidText(v)
    ensures u == v
  {
    NatToStringInjective(u.serial, v.serial);
  }

  /** The generator behind `uuid.uuid4()`: every value drawn so far has a
      serial below `issued`, so the next one differs from all of them. */
  class UuidSource {
    var issued: nat

    constructor()
      ensures issued == 0
    {
      issued := 0;
    }

    method Draw() returns (u: Uuid)
      modifies this
      ensures u == Uuid(old(issued)) && issued == old(issued) + 1
    {
      u := Uuid(issued);
      issued := issued + 1;
    }
  }

  // ---------------------------------------------------------------- DataManager

  /** An entry of `data_map`: the frame and the file's name as uploaded. */
  datatype Source = Source(frame: Frame, name: string)

  /** Every key of the store was drawn before the generator reached `issued`. */
  predicate KeysBelow(d: Dict<Uuid, Source>, issued: nat) {
    forall i :: 0 <= i < |d.keys| ==> d.keys[i].serial < issued
  }

  /** `load_data`'s dispatch on the lower-cased file name: ".xlsx" first, then ".csv". */
  function FormatOfName(name: string): (r: Option<Format>)
    ensures r == Some(Xlsx) <==> EndsWith(Lower(name), ".xlsx")
    ensures r == Some(Csv) <==> !EndsWith(Lower(name), ".xlsx") && EndsWith(Lower(name), ".csv")
  {
    var filename := Lower(name);
    if EndsWith(filename, ".xlsx") then Some(Xlsx)
    else if EndsWith(filename, ".csv") then Some(Csv)
    else None
  }

  /**
   * `load_data` with `id` the identifier it drew: the new store and what the
   * call returns or raises. A name of another extension, and a spreadsheet
   * whose engine cannot be imported, give "" and store nothing; any other
   * decoder failure raises; a successful read is stored under `id` together
   * with the name as uploaded (not lower-cased), and the id's text is returned.
   */
  function LoadFile(d: Dict<Uuid, Source>, id: Uuid, read: Reader, name: string)
    : (out: (Dict<Uuid, Source>, Result<string, Error>))
    requires d.Valid()
    ensures out.0.Valid()
    ensures out.1.Failure? ==> out.1.error == ReadFailed && out.0 == d
    ensures out.1 == Success("") ==> out.0 == d
    ensures out.1 == Success("") <==>
      FormatOfName(name).None? || (FormatOfName(name) == Some(Xlsx) && read(Xlsx).MissingEngine?)
    ensures out.1.Success? && out.1.value != "" <==>
      FormatOfName(name).Some? && read(FormatOfName(name).value).Parsed?
    ensures out.1.Success? && out.1.value != "" ==>
      && out.1.value == UuidText(id)
      && out.0 == d.Put(id, Source(read(FormatOfName(name).value).frame, name))
  {
    match FormatOfName(name)
    case None => (d, Success(""))
    case Some(format) =>
      match read(format)
      case Parsed(t) => (d.Put(id, Source(t, name)), Success(UuidText(id)))
      case MissingEngine => if format == Xlsx then (d, Success("")) else (d, Failure(ReadFailed))
      case Unreadable => (d, Failure(ReadFailed))
  }

  /** A successful load with a fresh identifier adds exactly one entry at the
      end and keeps every earlier entry, even when file names repeat. */
  lemma LoadFileAddsOne(d: Dict<Uuid, Source>, id: Uuid, read: Reader, name: string)
    requires d.Valid() && KeysBelow(d, id.serial)
    requires LoadFile(d, id, read, name).1.Success? && LoadFile(d, id, read, name).1.value != ""
    ensures var d' := LoadFile(d, id, read, name).0;
      && d'.keys == d.keys + [id]
      && d'.Size() == d.Size() + 1
      && (forall k :: k in d.entries ==> k in d'.entries && d'.entries[k] == d.entries[k])
      && d'.entries[id].name == name
      && KeysBelow(d', id.serial + 1)
  {
  }

  /** The frames of the stored entries, in insertion order. */
  function Frames(vs: seq<Source>): (fs: seq<Frame>)
    ensures |fs| == |vs|
    ensures forall i :: 0 <= i < |vs| ==> fs[i] == vs[i].frame
  {
    seq(|vs|, i requires 0 <= i < |vs| => vs[i].frame)
  }

  /** `aggregate_data`: the empty frame when nothing is stored, the one frame
      itself when one is, the concatenation otherwise; in every case the
      concatenation of all stored frames in order. */
  function Aggregate(frames: seq<Frame>): (r: Frame)
    ensures r == Concat(frames)
    ensures |r.rows| == TotalRows(frames)
    ensures RowsInOrder(frames, r)
  {
    ConcatRowsInOrder(frames);
    if frames == [] then EMPTY_FRAME
    else if |frames| == 1 then
      assert frames == [frames[0]];
      ConcatSingleton(frames[0]);
      frames[0]
    else Concat(frames)
  }

  /** `get_column_names`: the aggregate's column list in its order, no name
      twice, each a column of some stored frame and every stored frame's
      columns among them. */
  function ColumnNames(frames: seq<Frame>): (r: seq<string>)
    ensures r == Concat(frames).columns
    ensures frames == [] ==> r == []
    ensures Distinct(r)
    ensures forall c :: c in r <==> exists k :: 0 <= k < |frames| && c in frames[k].columns
  {
    ConcatColumns(frames);
    Aggregate(frames).columns
  }

  /** `DataManager`: uploaded files keyed by a fresh identifier each. */
  class DataManager {
    var dataMap: Dict<Uuid, Source>

    constructor()
      ensures dataMap == Empty()
    {
      dataMap := Empty();
    }

    /** `load_data`: draws an identifier first, whether or not the file is then stored. */
    method LoadData(ids: UuidSource, read: Reader, name: string) returns (r: Result<string, Error>)
      requires dataMap.Valid() && KeysBelow(dataMap, ids.issued)
      modifies this, ids
      ensures dataMap.Valid() && KeysBelow(dataMap, ids.issued)
      ensures ids.issued == old(ids.issued) + 1
      ensures (dataMap, r) == LoadFile(old(dataMap), Uuid(old(ids.issued)), read, name)
    {
      var uniqueId := ids.Draw();
      var filename := Lower(name);
      var outcome: ReadOutcome;
      if EndsWith(filename, ".xlsx") {
        outcome := read(Xlsx);
        if outcome.MissingEngine? {
          return Success("");
        }
      } else if EndsWith(filename, ".csv") {
        outcome := read(Csv);
      } else {
        return Success("");
      }
      if !outcome.Parsed? {
        return Failure(ReadFailed);
      }
      LoadFileAddsOne(dataMap, uniqueId, read, name);
      dataMap := dataMap.Put(uniqueId, Source(outcome.frame, name));
      r := Success(UuidText(uniqueId));
    }

    /** `aggregate_data` */
    function AggregateData(): Frame
      reads this
      requires dataMap.Valid()
    {
      Aggregate(Frames(dataMap.Values()))
    }

    /** `get_column_names` */
    function GetColumnNames(): seq<string>
      reads this
      requires dataMap.Valid()
    {
      ColumnNames(Frames(dataMap.Values()))
    }
  }

  /** After a successful load with a fresh identifier the stored frames are the
      earlier ones followed by the new frame, so the aggregate gains exactly
      the new frame's rows. */
  lemma LoadFileAggregate(d: Dict<Uuid, Source>, id: Uuid, read: Reader, name: string)
    requires d.Valid() && KeysBelow(d, id.serial)
    requires LoadFile(d, id, read, name).1.Success? && LoadFile(d, id, read, name).1.value != ""
    ensures var t := read(FormatOfName(name).value).frame;
      var before := Frames(d.Values());
      var after := Frames(LoadFile(d, id, read, name).0.Values());
      && after == before + [t]
      && TotalRows(after) == TotalRows(before) + |t.rows|
      && |Aggregate(after).rows| == |Aggregate(before).rows| + |t.rows|
  {
    var t := read(FormatOfName(name).value).frame;
    assert id !in d.keys;
    var d' := d.Put(id, Source(t, name));
    assert d'.Values() == d.Values() + [Source(t, name)];
    assert Frames(d'.Values()) == Frames(d.Values()) + [t];
    TotalRowsAppend(Frames(d.Values()), [t]);
  }

  // -------------------------------------------------------------- upload tab

  /** A file the uploader widget holds: its name and the decoder applied to its bytes. */
  datatype UploadedFile = UploadedFile(name: string, read: Reader)

  /**
   * The loop of `UploadTab.render` over the files its uploader holds, with the
   * generator at `issued`: every file is loaded again, drawing one identifier
   * each, until a load raises. The new store, the generator's new position and
   * the error raised, if any.
   */
  function UploadFiles(d: Dict<Uuid, Source>, issued: nat, files: seq<UploadedFile>)
    : (r: (Dict<Uuid, Source>, nat, Option<Error>))
    requires d.Valid() && KeysBelow(d, issued)
    ensures r.0.Valid() && KeysBelow(r.0, r.1)
    ensures issued < r.1 <= issued + |files| || (files == [] && r.1 == issued)
    ensures r.2.None? ==> r.1 == issued + |files|
    ensures r.2.Some? ==> r.2.value == ReadFailed
    decreases |files|
  {
    if files == [] then (d, issued, None)
    else
      var f := files[0];
      var step := LoadFile(d, Uuid(issued), f.read, f.name);
      assert KeysBelow(step.0, issued + 1) by {
        if step.1.Success? && step.1.value != "" {
          LoadFileAddsOne(d, Uuid(issued), f.read, f.name);
        }
      }
      if step.1.Failure? then (step.0, issued + 1, Some(step.1.error))
      else UploadFiles(step.0, issued + 1, files[1..])
  }

  /** One turn of the loop: the first file's load either ends it or leaves the
      rest of the loop to run on the new store. */
  lemma UploadFilesStep(d: Dict<Uuid, Source>, issued: nat, files: seq<UploadedFile>,
                        d': Dict<Uuid, Source>, out: Result<string, Error>)
    requires d.Valid() && KeysBelow(d, issued) && files != []
    requires (d', out) == LoadFile(d, Uuid(issued), files[0].read, files[0].name)
    ensures d'.Valid() && KeysBelow(d', issued + 1)
    ensures out.Failure? ==> UploadFiles(d, issued, files) == (d', issued + 1, Some(out.error))
    ensures out.Success? ==> UploadFiles(d, issued, files) == UploadFiles(d', issued + 1, files[1..])
  {
    if out.Success? && out.value != "" {
      LoadFileAddsOne(d, Uuid(issued), files[0].read, files[0].name);
    }
  }

  /** The loop never drops or changes an entry stored earlier, raise or not. */
  lemma {:induction false} UploadFilesKeeps(d: Dict<Uuid, Source>, issued: nat, files: seq<UploadedFile>)
    requires d.Valid() && KeysBelow(d, issued)
    ensures var d' := UploadFiles(d, issued, files).0;
      forall k :: k in d.entries ==> k in d'.entries && d'.entries[k] == d.entries[k]
    decreases |files|
  {
    if files != [] {
      var f := files[0];
      var step := LoadFile(d, Uuid(issued), f.read, f.name);
      if step.1.Success? {
        if step.1.value != "" {
          LoadFileAddsOne(d, Uuid(issued), f.read, f.name);
        }
        assert UploadFiles(d, issued, files).0 == UploadFiles(step.0, issued + 1, files[1..]).0;
        UploadFilesKeeps(step.0, issued + 1, files[1..]);
      }
    }
  }

  /** Whether loading `f` stores it: a supported extension whose decoder succeeds. */
  predicate Stored(f: UploadedFile) {
    FormatOfName(f.name).Some? && f.read(FormatOfName(f.name).value).Parsed?
  }

  /** The number of files of `files` that loading stores, and their rows. */
  function StoredCount(files: seq<UploadedFile>): nat {
    if files == [] then 0 else (if Stored(files[0]) then 1 else 0) + StoredCount(files[1..])
  }

  function StoredRows(files: seq<UploadedFile>): nat {
    if files == [] then 0
    else (if Stored(files[0]) then |files[0].read(FormatOfName(files[0].name).value).frame.rows| else 0)
         + StoredRows(files[1..])
  }

  /** Whether the loop raises depends on the files alone, not on the store or
      the generator. */
  lemma {:induction false} UploadFilesErrorIndependent(d: Dict<Uuid, Source>, issued: nat,
                                                        e: Dict<Uuid, Source>, next: nat, files: seq<UploadedFile>)
    requires d.Valid() && KeysBelow(d, issued)
    requires e.Valid() && KeysBelow(e, next)
    ensures UploadFiles(d, issued, files).2 == UploadFiles(e, next, files).2
    decreases |files|
  {
    if files != [] {
      var f := files[0];
      var s := LoadFile(d, Uuid(issued), f.read, f.name);
      var t := LoadFile(e, Uuid(next), f.read, f.name);
      UploadFilesStep(d, issued, files, s.0, s.1);
      UploadFilesStep(e, next, files, t.0, t.1);
      assert s.1.Failure? <==> t.1.Failure?;
      if s.1.Success? {
        UploadFilesErrorIndependent(s.0, issued + 1, t.0, next + 1, files[1..]);
      }
    }
  }

  /** A loop that raises nothing appends one entry per stored file, keeping the
      earlier ones, and the stored rows grow by those files' rows, whatever was
      stored before. */
  lemma {:induction false} UploadFilesRows(d: Dict<Uuid, Source>, issued: nat, files: seq<UploadedFile>)
    requires d.Valid() && KeysBelow(d, issued)
    requires UploadFiles(d, issued, files).2.None?
    ensures var d' := UploadFiles(d, issued, files).0;
      && d'.Size() == d.Size() + StoredCount(files)
      && TotalRows(Frames(d'.Values())) == TotalRows(Frames(d.Values())) + StoredRows(files)
    decreases |files|
  {
    if files != [] {
      var f := files[0];
      var step := LoadFile(d, Uuid(issued), f.read, f.name);
      if step.1.value != "" {
        LoadFileAddsOne(d, Uuid(issued), f.read, f.name);
        LoadFileAggregate(d, Uuid(issued), f.read, f.name);
      }
      UploadFilesRows(step.0, issued + 1, files[1..]);
    }
  }

  /** Two runs that render the same upload tab, with the uploader still holding
      the same files, store each of them twice under fresh identifiers: the
      aggregate holds their rows twice over. */
  lemma UploadRerunDuplicates(d: Dict<Uuid, Source>, issued: nat, files: seq<UploadedFile>)
    requires d.Valid() && KeysBelow(d, issued)
    requires UploadFiles(d, issued, files).2.None?
    ensures var first := UploadFiles(d, issued, files);
      var second := UploadFiles(first.0, first.1, files);
      && second.2.None?
      && second.0.Size() == d.Size() + 2 * StoredCount(files)
      && |Aggregate(Frames(second.0.Values())).rows| == |Aggregate(Frames(d.Values())).rows| + 2 * StoredRows(files)
  {
    var first := UploadFiles(d, issued, files);
    UploadFilesErrorIndependent(d, issued, first.0, first.1, files);
    UploadFilesRows(d, issued, files);
    UploadFilesRows(first.0, first.1, files);
  }

  /** The loop of `UploadTab.render` of new.py on the tab's data manager: loads
      every file the uploader holds until one raises. */
  method LoadFiles(dm: DataManager, ids: UuidSource, files: seq<UploadedFile>) returns (err: Option<Error>)
    requires dm.dataMap.Valid() && KeysBelow(dm.dataMap, ids.issued)
    modifies dm, ids
    ensures dm.dataMap.Valid() && KeysBelow(dm.dataMap, ids.issued)
    ensures (dm.dataMap, ids.issued, err) == UploadFiles(old(dm.dataMap), old(ids.issued), files)
  {
    ghost var spec := UploadFiles(dm.dataMap, ids.issued, files);
    var rest := files;
    while rest != []
      invariant dm.dataMap.Valid() && KeysBelow(dm.dataMap, ids.issued)
      invariant spec == UploadFiles(dm.dataMap, ids.issued, rest)
      decreases |rest|
    {
      var loaded := LoadFirst(dm, ids, rest);
      if loaded.Failure? {
        return Some(loaded.error);
      }
      rest := rest[1..];
    }
    err := None;
  }

  /** One turn of that loop: loads the first of `rest`. */
  method LoadFirst(dm: DataManager, ids: UuidSource, rest: seq<UploadedFile>) returns (loaded: Result<string, Error>)
    requires dm.dataMap.Valid() && KeysBelow(dm.dataMap, ids.issued) && rest != []
    modifies dm, ids
    ensures dm.dataMap.Valid() && KeysBelow(dm.dataMap, ids.issued)
    ensures loaded.Failure? ==>
      UploadFiles(old(dm.dataMap), old(ids.issued), rest) == (dm.dataMap, ids.issued, Some(loaded.error))
    ensures loaded.Success? ==>
      UploadFiles(old(dm.dataMap), old(ids.issued), rest) == UploadFiles(dm.dataMap, ids.issued, rest[1..])
  {
    loaded := dm.LoadData(ids, rest[0].read, rest[0].name);
    UploadFilesStep(old(dm.dataMap), old(ids.issued), rest, dm.dataMap, loaded);
  }

  /** `UploadTab.render` of new.py: the loop, then the aggregate it previews. */
  method RenderUpload(dm: DataManager, ids: UuidSource, files: seq<UploadedFile>) returns (r: Result<Frame, Error>)
    requires dm.dataMap.Valid() && KeysBelow(dm.dataMap, ids.issued)
    modifies dm, ids
    ensures dm.dataMap.Valid() && KeysBelow(dm.dataMap, ids.issued)
    ensures (dm.dataMap, ids.issued) == (UploadFiles(old(dm.dataMap), old(ids.issued), files).0,
                                         UploadFiles(old(dm.dataMap), old(ids.issued), files).1)
    ensures UploadFiles(old(dm.dataMap), old(ids.issued), files).2.Some? ==>
      r == Failure(UploadFiles(old(dm.dataMap), old(ids.issued), files).2.value)
    ensures UploadFiles(old(dm.dataMap), old(ids.issued), files).2.None? ==>
      r == Success(Aggregate(Frames(dm.dataMap.Values())))
  {
    var err := LoadFiles(dm, ids, files);
    if err.Some? {
      return Failure(err.value);
    }
    r := Success(dm.AggregateData());
  }

  // --------------------------------------------------------------------- tabs

  /** A tab object: its class, the data manager it was given (`None` by
      default) and the identifier drawn in `Tab.__init__`. */
  datatype UuidTab = UuidTab(kind: Kind, dataManager: Option<DataManager>, tabId: Uuid)

  /** `create_tab` on the registry `d` when the generator stands at `next`. */
  function CreateTabAt(d: Dict<string, Kind>, name: string, dm: Option<DataManager>, next: nat)
    : (r: Result<UuidTab, Error>)
    ensures r.Failure? <==> name !in d.entries
    ensures r.Failure? ==> r.error == NotRegistered(name)
    ensures r.Success? ==> r.value.dataManager == dm && r.value.tabId == Uuid(next)
    ensures NamesMatch(d) && r.Success? ==> Name(r.value.kind) == name
  {
    match Lookup(d, name)
    case Failure(_) => Failure(NotRegistered(name))
    case Success(k) => Success(UuidTab(k, dm, Uuid(next)))
  }

  /** `create_tab`: an unknown name raises before any identifier is drawn. */
  method CreateTab(factory: TabFactory, ids: UuidSource, name: string, dm: Option<DataManager>)
    returns (r: Result<UuidTab, Error>)
    modifies ids
    ensures r == CreateTabAt(factory.tabClasses, name, dm, old(ids.issued))
    ensures ids.issued == if r.Success? then old(ids.issued) + 1 else old(ids.issued)
  {
    var found := factory.LookupClass(name);
    if found.Failure? {
      return Failure(NotRegistered(name));
    }
    var tabId := ids.Draw();
    r := Success(UuidTab(found.value, dm, tabId));
  }

  // ----------------------------------------------------------------- sheets

  /** The title of the tab at position `i` of a sheet: its number from 1, its
      class name and the first eight characters of its identifier. */
  function TabTitle(i: nat, t: UuidTab): string {
    "Tab " + NatToString(i + 1) + ":" + TitleTail(t)
  }

  /** The part of a title after the number and its colon. */
  function TitleTail(t: UuidTab): string {
    " " + Name(t.kind) + " [" + Prefix(UuidText(t.tabId), 8) + "]"
  }

  /** Titles at different positions differ, whatever the tabs' identifiers. */
  lemma TabTitleInjective(i: nat, t: UuidTab, j: nat, u: UuidTab)
    requires TabTitle(i, t) == TabTitle(j, u)
    ensures i == j
  {
    NumberedEqual("Tab ", i + 1, j + 1, ':', TitleTail(t), TitleTail(u));
  }

  /** What `render_sheet` shows. */
  datatype SheetView = NoSheetSelected | NoTabs | Titled(titles: seq<string>)

  /** `render_sheet`: "No sheet selected." for an index outside `[0, len)`,
      "This sheet has no tabs." for an empty sheet, and otherwise one title per
      tab in order, no two alike. */
  function RenderSheetView(sheets: seq<seq<UuidTab>>, i: int): (r: SheetView)
    ensures r == NoSheetSelected <==> i < 0 || i >= |sheets|
    ensures r == NoTabs <==> 0 <= i < |sheets| && sheets[i] == []
    ensures r.Titled? ==>
      && 0 <= i < |sheets|
      && |r.titles| == |sheets[i]|
      && (forall k :: 0 <= k < |r.titles| ==> r.titles[k] == TabTitle(k, sheets[i][k]))
      && (forall k, l :: 0 <= k < l < |r.titles| ==> r.titles[k] != r.titles[l])
  {
    if i < 0 || i >= |sheets| then NoSheetSelected
    else if sheets[i] == [] then NoTabs
    else
      var tabs := sheets[i];
      var titles := seq(|tabs|, k requires 0 <= k < |tabs| => TabTitle(k, tabs[k]));
      assert forall k, l :: 0 <= k < l < |titles| ==> titles[k] != titles[l] by {
        forall k, l | 0 <= k < l < |titles| ensures titles[k] != titles[l] {
          if titles[k] == titles[l] {
            TabTitleInjective(k, tabs[k], l, tabs[l]);
          }
        }
      }
      Titled(titles)
  }

  /** `SheetManager` */
  class SheetManager {
    var sheets: seq<seq<UuidTab>>

    constructor()
      ensures sheets == []
    {
      sheets := [];
    }

    /** `add_sheet` */
    method AddSheet()
      modifies this
      ensures sheets == old(sheets) + [[]]
    {
      sheets := sheets + [[]];
    }

    /** `add_tab_to_sheet`: only an index at least the number of sheets is
      rejected before Python's own list subscript. */
    method AddTabToSheet(sheetIndex: int, tab: UuidTab) returns (r: Result<(), Error>)
      modifies this
      ensures AppendUpperChecked(old(sheets), sheetIndex, tab).None? ==>
        r == Failure(IndexError) && sheets == old(sheets)
      ensures AppendUpperChecked(old(sheets), sheetIndex, tab).Some? ==>
        r == Success(()) && sheets == AppendUpperChecked(old(sheets), sheetIndex, tab).value
    {
      if sheetIndex >= |sheets| {
        return Failure(IndexError);
      }
      var j := PyIndex(sheetIndex, |sheets|);
      if j.None? {
        return Failure(IndexError);
      }
      sheets := sheets[j.value := sheets[j.value] + [tab]];
      r := Success(());
    }

    /** `get_sheet_count` */
    function GetSheetCount(): (n: nat)
      reads this
      ensures n == 0 <==> sheets == []
      ensures forall i :: 0 <= i < n <==> RenderSheetView(sheets, i) != NoSheetSelected
    {
      |sheets|
    }

    /** `get_tabs_in_sheet`: the sheet's tabs for an index in `[0, len)`, and
        no tabs for any other index, negative ones included. */
    function GetTabsInSheet(sheetIndex: int): (r: seq<UuidTab>)
      reads this
      ensures 0 <= sheetIndex < |sheets| ==> r == sheets[sheetIndex]
      ensures !(0 <= sheetIndex < |sheets|) ==> r == []
    {
      if 0 <= sheetIndex < |sheets| then sheets[sheetIndex] else []
    }

    /** `render_sheet` */
    function RenderSheet(sheetIndex: int): SheetView
      reads this
    {
      RenderSheetView(sheets, sheetIndex)
    }
  }

  // ------------------------------------------------------------------- the app

  /** The one widget a run of the script reacts to. */
  datatype Click =
    | NoClick
    | AddSheetClick
    | SheetClick(index: int)
    | AddTabClick(selected: string)   // with the tab type chosen in the select box

  /** The main page: the placeholder without sheets, else the active sheet. */
  datatype MainView = NoSheetsToDisplay | ActiveSheet(view: SheetView)

  /** What a run shows: the sheet buttons' captions, the active sheet's
      number as the sidebar prints it (when there are sheets), and the page. */
  datatype Page = Page(navigation: seq<string>, activeNumber: Option<int>, main: MainView)

  /** The session state a run reads and changes; `issued` is the identifier
      generator's position. */
  datatype State = State(sheets: seq<seq<UuidTab>>, active: int, issued: nat)

  /** The state the app keeps between runs: the active index is in range, and
      every tab's identifier was drawn earlier and belongs to that tab alone. */
  predicate ValidState(s: State) {
    && ActiveInRange(|s.sheets|, s.active)
    && (forall a, x :: 0 <= a < |s.sheets| && 0 <= x < |s.sheets[a]| ==> s.sheets[a][x].tabId.serial < s.issued)
    && (forall a, x, b, y ::
          (0 <= a < |s.sheets| && 0 <= x < |s.sheets[a]| && 0 <= b < |s.sheets| && 0 <= y < |s.sheets[b]|
           && (a != b || x != y)) ==> s.sheets[a][x].tabId != s.sheets[b][y].tabId)
  }

  /** The output of a run for the state it ends in. */
  function Render(s: State): (r: Page)
    ensures r.navigation == SheetCaptions(|s.sheets|)
    ensures r.main == NoSheetsToDisplay <==> s.sheets == []
    ensures s.sheets != [] ==> r.activeNumber == Some(s.active + 1)
    ensures s.sheets != [] ==> r.main == ActiveSheet(RenderSheetView(s.sheets, s.active))
    ensures ValidState(s) && s.sheets != [] ==> r.main.view != NoSheetSelected
  {
    if |s.sheets| > 0 then
      Page(SheetCaptions(|s.sheets|), Some(s.active + 1), ActiveSheet(RenderSheetView(s.sheets, s.active)))
    else Page([], None, NoSheetsToDisplay)
  }

  /**
   * The clicks of one run of `StreamlitApp.run` after `init_session_state`:
   * the new session state and the error raised, if any. The sheet buttons and
   * the add-tab button exist only while there is a sheet, and only buttons for
   * existing sheets can be clicked.
   */
  function Apply(s: State, c: Click, registry: Dict<string, Kind>, dm: DataManager): (r: (State, Option<Error>))
    ensures !c.AddTabClick? ==> r.1.None? && r.0.issued == s.issued
    ensures c == AddSheetClick ==> r.0 == State(s.sheets + [[]], |s.sheets|, s.issued)
    ensures c.SheetClick? ==> r.0.sheets == s.sheets
    ensures c.SheetClick? && 0 <= c.index < |s.sheets| ==> r.0 == s.(active := c.index)
    ensures c.SheetClick? && !(0 <= c.index < |s.sheets|) ==> r.0 == s
    ensures c.AddTabClick? ==> r.0.active == s.active
    ensures r.0.issued == (if c.AddTabClick? && s.sheets != [] && c.selected in registry.entries then s.issued + 1 else s.issued)
    ensures c.AddTabClick? && s.sheets != [] && c.selected !in registry.entries ==>
      r == (s, Some(NotRegistered(c.selected)))
    ensures r.1 == Some(IndexError) ==> r.0.sheets == s.sheets && !(-|s.sheets| <= s.active < |s.sheets|)
  {
    match c
    case NoClick => (s, None)
    case AddSheetClick => (s.(sheets := s.sheets + [[]], active := |s.sheets + [[]]| - 1), None)
    case SheetClick(i) => (if 0 <= i < |s.sheets| then s.(active := i) else s, None)
    case AddTabClick(name) =>
      if |s.sheets| == 0 then (s, None)
      else
        match CreateTabAt(registry, name, Some(dm), s.issued)
        case Failure(e) => (s, Some(e))
        case Success(tab) =>
          var s1 := s.(issued := s.issued + 1);
          match AppendUpperChecked(s.sheets, s.active, tab)
          case None => (s1, Some(IndexError))
          case Some(sheets') => (s1.(sheets := sheets'), None)
  }

  /** One run: the clicks, then the page of the resulting state. After adding
      a tab the script reruns with nothing clicked, which shows that same page. */
  function Step(s: State, c: Click, registry: Dict<string, Kind>, dm: DataManager): (r: (State, Result<Page, Error>))
    ensures r.0 == Apply(s, c, registry, dm).0
    ensures r.1.Failure? <==> Apply(s, c, registry, dm).1.Some?
    ensures r.1.Success? ==> r.1.value == Render(r.0)
  {
    var (t, err) := Apply(s, c, registry, dm);
    (t, if err.Some? then Failure(err.value) else Success(Render(t)))
  }

  /** The session starts with no sheets and active index 0. */
  lemma InitialStateValid(issued: nat)
    ensures ValidState(State([], 0, issued))
  {
  }

  /** Every run keeps the session state valid. */
  lemma StepKeepsValid(s: State, c: Click, registry: Dict<string, Kind>, dm: DataManager)
    requires ValidState(s)
    ensures ValidState(Step(s, c, registry, dm).0)
  {
    if c.AddTabClick? && |s.sheets| > 0 {
      var r := CreateTabAt(registry, c.selected, Some(dm), s.issued);
      if r.Success? {
        var tab := r.value;
        var j := s.active;
        var after := AppendUpperChecked(s.sheets, j, tab);
        assert after.Some?;
        var t: seq<seq<UuidTab>> := after.value;
        assert AppendedAt(s.sheets, t, j, tab);
        forall a, x | 0 <= a < |t| && 0 <= x < |t[a]|
          ensures t[a][x].tabId.serial < s.issued + 1
          ensures a != j || x != |s.sheets[j]| ==> t[a][x] == s.sheets[a][x]
        {
          if a == j && x < |s.sheets[j]| {
            assert t[a][x] == (s.sheets[j] + [tab])[x];
          }
        }
      }
    }
  }

  /** When the chosen tab type is a registered one, no run raises. */
  lemma StepNeverRaises(s: State, c: Click, registry: Dict<string, Kind>, dm: DataManager)
    requires ValidState(s)
    requires c.AddTabClick? ==> c.selected in registry.entries
    ensures Step(s, c, registry, dm).1.Success?
  {
  }

  /** Adding a sheet appends one empty sheet and makes it the active one; adding
      a tab puts it, with a fresh identifier, at the end of the active sheet. */
  lemma StepEffects(s: State, c: Click, registry: Dict<string, Kind>, dm: DataManager)
    requires ValidState(s)
    ensures c == AddSheetClick ==>
      Step(s, c, registry, dm).0 == State(s.sheets + [[]], |s.sheets|, s.issued)
    ensures c.AddTabClick? && |s.sheets| > 0 && c.selected in registry.entries ==>
      var t := Step(s, c, registry, dm).0;
      && t.issued == s.issued + 1 && t.active == s.active
      && AppendedAt(s.sheets, t.sheets, s.active, UuidTab(Lookup(registry, c.selected).value, Some(dm), Uuid(s.issued)))
  {
  }

  /** `StreamlitApp` with its session state: the managers and the active index. */
  class StreamlitApp {
    const dataManager: DataManager
    const tabFactory: TabFactory
    const sheetManager: SheetManager
    const ids: UuidSource
    var activeSheetIndex: int

    ghost predicate Valid()
      reads this, dataManager, tabFactory, sheetManager, ids
    {
      && tabFactory.tabClasses == Discovered()
      && dataManager.dataMap.Valid() && KeysBelow(dataManager.dataMap, ids.issued)
      && ValidState(CurrentState())
    }

    function CurrentState(): State
      reads this, sheetManager, ids
    {
      State(sheetManager.sheets, activeSheetIndex, ids.issued)
    }

    /** `init_session_state` on the first run: fresh managers and index 0. */
    constructor(ids: UuidSource)
      ensures Valid() && this.ids == ids && ids.issued == old(ids.issued)
      ensures fresh(dataManager) && fresh(tabFactory) && fresh(sheetManager)
      ensures CurrentState() == State([], 0, ids.issued) && dataManager.dataMap == Empty()
    {
      var factory := NewDiscoveredFactory();
      dataManager := new DataManager();
      tabFactory := factory;
      sheetManager := new SheetManager();
      this.ids := ids;
      activeSheetIndex := 0;
    }

    /** The sidebar's buttons in `run`. */
    method HandleClick(c: Click) returns (err: Option<Error>)
      requires ActiveInRange(|sheetManager.sheets|, activeSheetIndex)
      modifies this, sheetManager, ids
      ensures (CurrentState(), err) == Apply(old(CurrentState()), c, tabFactory.tabClasses, dataManager)
    {
      err := None;
      match c {
        case NoClick =>
        case AddSheetClick =>
          sheetManager.AddSheet();
          activeSheetIndex := sheetManager.GetSheetCount() - 1;
        case SheetClick(i) =>
          if 0 <= i < sheetManager.GetSheetCount() {
            activeSheetIndex := i;
          }
        case AddTabClick(name) =>
          if sheetManager.GetSheetCount() > 0 {
            var created := CreateTab(tabFactory, ids, name, Some(dataManager));
            if created.Failure? {
              return Some(created.error);
            }
            // The active index names an existing sheet, so this append does not raise.
            var added := sheetManager.AddTabToSheet(activeSheetIndex, created.value);
          }
      }
    }

    /** `run` after the session state exists. */
    method Run(c: Click) returns (r: Result<Page, Error>)
      requires Valid()
      modifies this, sheetManager, ids
      ensures Valid()
      ensures (CurrentState(), r) == Step(old(CurrentState()), c, tabFactory.tabClasses, dataManager)
    {
      var err := HandleClick(c);
      StepKeepsValid(old(CurrentState()), c, tabFactory.tabClasses, dataManager);
      if err.Some? {
        return Failure(err.value);
      }
      r := Success(Render(CurrentState()));
    }
  }
}
