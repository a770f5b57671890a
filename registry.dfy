/**
 * The tab kinds and the factory that discovers and instantiates them. In all
 * three front ends the factory records every subclass of `Tab` under its class
 * name, in the order the classes are defined; here the reflective subclass
 * scan is the fixed list `SUBCLASSES`.
 */
module Registry {
  import opened Outcomes
  import opened Dicts

  /** The subclasses of `Tab` every front end defines. */
  datatype Kind = UploadTab | PlotsTab

  /** `subclass.__name__` */
  function Name(k: Kind): string {
    match k
    case UploadTab => "UploadTab"
    case PlotsTab => "PlotsTab"
  }

  /** `Tab.__subclasses__()`, in definition order. */
  const SUBCLASSES: seq<Kind> := [UploadTab, PlotsTab]

  /** The registry after running the discovery loop over `ks`, starting from `d`. */
  function Register(d: Dict<string, Kind>, ks: seq<Kind>): (r: Dict<string, Kind>)
    requires d.Valid()
    ensures r.Valid()
  {
    if ks == [] then d
    else
      var last := ks[|ks| - 1];
      Register(d, ks[..|ks| - 1]).Put(Name(last), last)
  }

  /** `k` is recorded under its own name. */
  predicate Registered(d: Dict<string, Kind>, k: Kind) {
    Name(k) in d.entries && d.entries[Name(k)] == k
  }

  /** Every entry maps a class name to the class of that name. */
  predicate NamesMatch(d: Dict<string, Kind>) {
    forall n | n in d.entries :: Name(d.entries[n]) == n
  }

  /** After discovery every listed kind is recorded under its name, the entries
      that were there keep their positions, and no entry names a wrong class. */
  lemma {:induction false} RegisterRecords(d: Dict<string, Kind>, ks: seq<Kind>)
    requires d.Valid()
    ensures forall k :: k in ks ==> Registered(Register(d, ks), k)
    ensures |d.keys| <= |Register(d, ks).keys| && Register(d, ks).keys[..|d.keys|] == d.keys
    ensures NamesMatch(d) ==> NamesMatch(Register(d, ks))
  {
    if ks != [] {
      var init := ks[..|ks| - 1];
      var last := ks[|ks| - 1];
      RegisterRecords(d, init);
      var p := Register(d, init);
      forall k | k in ks ensures Registered(Register(d, ks), k) {
        if k != last {
          assert k in init;
        }
      }
      assert Register(d, ks).keys[..|p.keys|] == p.keys;
      assert Register(d, ks).keys[..|d.keys|] == p.keys[..|d.keys|];
    }
  }

  /** Registering kinds that are already recorded under their names changes nothing. */
  lemma {:induction false} RegisterAgain(d: Dict<string, Kind>, ks: seq<Kind>)
    requires d.Valid()
    requires forall k :: k in ks ==> Registered(d, k)
    ensures Register(d, ks) == d
  {
    if ks != [] {
      var last := ks[|ks| - 1];
      assert last in ks;
      assert forall k :: k in ks[..|ks| - 1] ==> k in ks;
      RegisterAgain(d, ks[..|ks| - 1]);
      assert Name(last) in d.keys;
      assert d.entries[Name(last) := last] == d.entries;
    }
  }

  /** Running discovery a second time leaves the registry as the first run left it. */
  lemma RegisterIdempotent(d: Dict<string, Kind>, ks: seq<Kind>)
    requires d.Valid()
    ensures Register(Register(d, ks), ks) == Register(d, ks)
  {
    RegisterRecords(d, ks);
    RegisterAgain(Register(d, ks), ks);
  }

  /** The registry a fresh factory has after one discovery run: `UploadTab`
      then `PlotsTab`, each under its own name. */
  function Discovered(): (d: Dict<string, Kind>)
    ensures d == Register(Empty(), SUBCLASSES)
    ensures d.Valid()
    ensures forall k: Kind :: Registered(d, k)
    ensures NamesMatch(d)
  {
    DiscoveryTurns();
    BothRegistered();
    Dict(["UploadTab", "PlotsTab"], map["UploadTab" := UploadTab, "PlotsTab" := PlotsTab])
  }

  /** The two turns of the discovery loop from an empty registry. */
  lemma DiscoveryTurns()
    ensures Register(Empty(), SUBCLASSES)
         == Dict(["UploadTab", "PlotsTab"], map["UploadTab" := UploadTab, "PlotsTab" := PlotsTab])
  {
    FirstTurn();
    assert SUBCLASSES[..1] == [UploadTab];
    var first: Dict<string, Kind> := Dict(["UploadTab"], map["UploadTab" := UploadTab]);
    assert Register(Empty(), SUBCLASSES) == first.Put("PlotsTab", PlotsTab);
    assert "PlotsTab" !in first.entries;
  }

  /** The first turn records `UploadTab` alone. */
  lemma FirstTurn()
    ensures Register(Empty(), [UploadTab]) == Dict(["UploadTab"], map["UploadTab" := UploadTab])
  {
    var e: Dict<string, Kind> := Empty();
    assert [UploadTab][..0] == [];
    assert Register(e, [UploadTab]) == e.Put("UploadTab", UploadTab);
  }

  /** The registry with both classes under their names records each class. */
  lemma BothRegistered()
    ensures var d := Dict(["UploadTab", "PlotsTab"], map["UploadTab" := UploadTab, "PlotsTab" := PlotsTab]);
      && (forall k: Kind :: Registered(d, k))
      && NamesMatch(d)
  {
    var d := Dict(["UploadTab", "PlotsTab"], map["UploadTab" := UploadTab, "PlotsTab" := PlotsTab]);
    forall k: Kind ensures Registered(d, k) {
      if k == UploadTab {
        assert Name(k) == "UploadTab";
      } else {
        assert Name(k) == "PlotsTab";
      }
    }
    forall n | n in d.entries ensures Name(d.entries[n]) == n {
      assert n == "UploadTab" || n == "PlotsTab";
    }
  }

  /** `create_tab`'s lookup: `ValueError` for a name that is not registered,
      the registered class otherwise. */
  function Lookup(d: Dict<string, Kind>, name: string): (r: Result<Kind, string>)
    ensures r.Success? <==> name in d.entries
    ensures r.Failure? ==> r.error == name
    ensures NamesMatch(d) && r.Success? ==> Name(r.value) == name
  {
    if name !in d.entries then Failure(name) else Success(d.entries[name])
  }

  /** One dropdown entry `{"label": name, "value": name}` (`display` is the label). */
  datatype TabOption = TabOption(display: string, value: string)

  /** `get_tab_options` of main.py and new.py: one option per registered name,
      in registration order; exactly the options offered can be created. */
  function TabOptions(d: Dict<string, Kind>): (r: seq<TabOption>)
    requires d.Valid()
    ensures |r| == |d.keys|
    ensures forall i :: 0 <= i < |r| ==> r[i].display == d.keys[i] && r[i].value == d.keys[i]
    ensures forall o :: o in r ==> Lookup(d, o.value).Success?
    ensures forall n :: Lookup(d, n).Success? ==> exists i :: 0 <= i < |r| && r[i].value == n
  {
    var r := seq(|d.keys|, i requires 0 <= i < |d.keys| => TabOption(d.keys[i], d.keys[i]));
    assert forall n :: n in d.entries ==> exists i :: 0 <= i < |r| && r[i].value == n by {
      forall n | n in d.entries ensures exists i :: 0 <= i < |r| && r[i].value == n {
        var i :| 0 <= i < |d.keys| && d.keys[i] == n;
        assert r[i].value == n;
      }
    }
    r
  }

  /** `TabFactory`: the registry of tab classes by name. */
  class TabFactory {
    var tabClasses: Dict<string, Kind>

    /** main.py's `TabFactory()`, which starts empty; main.py discovers later. */
    constructor()
      ensures tabClasses == Empty()
    {
      tabClasses := Empty();
    }

    /** `discover_tabs`: register every subclass under its class name. */
    method DiscoverTabs()
      requires tabClasses.Valid()
      modifies this
      ensures tabClasses == Register(old(tabClasses), SUBCLASSES)
    {
      var i := 0;
      while i < |SUBCLASSES|
        invariant 0 <= i <= |SUBCLASSES|
        invariant tabClasses.Valid()
        invariant tabClasses == Register(old(tabClasses), SUBCLASSES[..i])
      {
        var k := SUBCLASSES[i];
        assert SUBCLASSES[..i + 1][..i] == SUBCLASSES[..i];
        tabClasses := tabClasses.Put(Name(k), k);
        i := i + 1;
      }
      assert SUBCLASSES[..i] == SUBCLASSES;
    }

    /** The class `create_tab` would instantiate for `name`. */
    function LookupClass(name: string): Result<Kind, string>
      reads this
    {
      Lookup(tabClasses, name)
    }

    /** main.py and new.py `get_tab_options`. */
    function GetTabOptions(): seq<TabOption>
      reads this
      requires tabClasses.Valid()
    {
      TabOptions(tabClasses)
    }

    /** streamlit.py `get_tab_options`: the registered names, in order, which
        are the values of the options main.py and new.py offer. */
    function GetTabNames(): (r: seq<string>)
      reads this
      requires tabClasses.Valid()
      ensures |r| == |TabOptions(tabClasses)|
      ensures forall i :: 0 <= i < |r| ==> r[i] == TabOptions(tabClasses)[i].value
      ensures forall n :: n in r <==> Lookup(tabClasses, n).Success?
    {
      tabClasses.keys
    }
  }

  /** new.py and streamlit.py build the factory and discover in `__init__`. */
  method NewDiscoveredFactory() returns (f: TabFactory)
    ensures fresh(f) && f.tabClasses == Discovered()
  {
    f := new TabFactory();
    f.DiscoverTabs();
  }
}
