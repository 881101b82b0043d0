/**
 * RasCAL-2's settings (rascal2/settings.py, and its older variant
 * rascal2/core/settings.py): each setting is taken from the value given
 * explicitly, else from the global store (Qt's `QSettings`) under its
 * `"group/key"` name, else from its default; only explicitly given settings
 * count as set, are written back to the global store and are saved to a
 * project's `settings.json`. The global store also keeps the list of recently
 * opened projects.
 *
 * The two source files differ only in their fields and group names, so the
 * variant is a parameter. Pydantic's validation of a value is the predicate
 * `Fits`; the global store is a map from names to values.
 */
module Settings {
  import opened Wrappers
  import opened Text
  import opened Sequences

  /** Which of the two settings modules is meant. */
  datatype Version = AppSettings | CoreSettings

  /** The settings fields of either version. */
  datatype Setting =
    | Style
    | EditorFontsize
    | LiveRecalculate
    | LogPath
    | LogLevelSetting
    | ClearTerminal
    | TerminalFontsize
    | MdiDefaults

  /** `Settings.model_fields` of each version, in declaration order. */
  function Declared(version: Version): seq<Setting>
  {
    match version
    case AppSettings =>
      [Style, EditorFontsize, LiveRecalculate, LogPath, LogLevelSetting, ClearTerminal, TerminalFontsize, MdiDefaults]
    case CoreSettings => [Style, EditorFontsize, TerminalFontsize, LogPath, LogLevelSetting]
  }

  function DeclaredSet(version: Version): set<Setting>
  {
    set s | s in Declared(version)
  }

  /** The attribute name of a setting. */
  function KeyName(s: Setting): string
  {
    match s
    case Style => "style"
    case EditorFontsize => "editor_fontsize"
    case LiveRecalculate => "live_recalculate"
    case LogPath => "log_path"
    case LogLevelSetting => "log_level"
    case ClearTerminal => "clear_terminal"
    case TerminalFontsize => "terminal_fontsize"
    case MdiDefaults => "mdi_defaults"
  }

  /** The field's `title`: its settings group. */
  function Group(version: Version, s: Setting): string
  {
    match version
    case AppSettings =>
      (match s
       case Style | EditorFontsize | LiveRecalculate => "General"
       case LogPath | LogLevelSetting => "Logging"
       case ClearTerminal | TerminalFontsize => "Terminal"
       case MdiDefaults => "Windows")
    case CoreSettings =>
      (match s
       case LogPath | LogLevelSetting => "logging"
       case _ => "general")
  }

  /** `global_name`: `"group/key"`, or just the key for a field without a group. */
  function GlobalName(version: Version, s: Setting): string
  {
    var group := Group(version, s);
    if group != "" then group + "/" + KeyName(s) else KeyName(s)
  }

  lemma KeyNameInjective(a: Setting, b: Setting)
    requires KeyName(a) == KeyName(b)
    ensures a == b
  {
    assert KeyName(a)[..|KeyName(a)|] == KeyName(b)[..|KeyName(b)|];
  }

  lemma KeyNameNoSlash(s: Setting)
    ensures '/' !in KeyName(s)
  {
  }

  /**
   * Every setting has a group, so its global name is the group and the key
   * joined by `/`, and the group and the key are read back from the name.
   */
  lemma GlobalNameShape(version: Version, s: Setting)
    ensures Group(version, s) != ""
    ensures GlobalName(version, s) == JoinPath(Group(version, s), KeyName(s))
    ensures Parent(GlobalName(version, s)) == Group(version, s) && Name(GlobalName(version, s)) == KeyName(s)
  {
    assert Group(version, s) != "";
    KeyNameNoSlash(s);
    ParentNameOfJoin(Group(version, s), KeyName(s));
  }

  /** No two settings share a global name. */
  lemma GlobalNameInjective(version: Version, a: Setting, b: Setting)
    requires GlobalName(version, a) == GlobalName(version, b)
    ensures a == b
  {
    GlobalNameShape(version, a);
    GlobalNameShape(version, b);
    KeyNameInjective(a, b);
  }

  // ---------------------------------------------------------------------------
  // Log levels
  // ---------------------------------------------------------------------------

  /** `LogLevels`: the levels of Python's `logging` module. */
  datatype LogLevel = Debug | Info | Warning | Error | Critical

  /** The level's integer value. */
  function LevelNumber(l: LogLevel): int
  {
    match l
    case Debug => 10
    case Info => 20
    case Warning => 30
    case Error => 40
    case Critical => 50
  }

  /** `LogLevels.__str__`: the level's upper-case name. */
  function LevelName(l: LogLevel): string
  {
    match l
    case Debug => "DEBUG"
    case Info => "INFO"
    case Warning => "WARNING"
    case Error => "ERROR"
    case Critical => "CRITICAL"
  }

  /** `LogLevels(n)` for an integer: the member with that value, if any. */
  function LevelOfNumber(n: int): (r: Option<LogLevel>)
    ensures r.Some? ==> LevelNumber(r.value) == n
    ensures (exists l :: LevelNumber(l) == n) ==> r.Some?
  {
    if n == 10 then Some(Debug)
    else if n == 20 then Some(Info)
    else if n == 30 then Some(Warning)
    else if n == 40 then Some(Error)
    else if n == 50 then Some(Critical)
    else None
  }

  /** `str.upper` on ASCII text. */
  function Upper(s: string): (r: string)
    ensures |r| == |s| && forall i :: 0 <= i < |s| ==> r[i] == ToUpper(s[i])
  {
    seq(|s|, i requires 0 <= i < |s| => ToUpper(s[i]))
  }

  /** The upper-case integer constants of the `logging` module. */
  function LoggingConstant(name: string): Option<int>
  {
    if name == "CRITICAL" || name == "FATAL" then Some(50)
    else if name == "ERROR" then Some(40)
    else if name == "WARNING" || name == "WARN" then Some(30)
    else if name == "INFO" then Some(20)
    else if name == "DEBUG" then Some(10)
    else if name == "NOTSET" then Some(0)
    else None
  }

  /** Why `LogLevels(text)` fails: no such `logging` attribute, or an attribute that is not a level. */
  datatype LevelError = NoSuchAttribute | NotALevel

  /** `LogLevels(text)` through `_missing_`: the text's upper-case form is looked up in `logging`. */
  function ParseLevel(text: string): (r: Result<LogLevel, LevelError>)
  {
    match LoggingConstant(Upper(text))
    case None => Failure(NoSuchAttribute)
    case Some(n) => if LevelOfNumber(n).Some? then Success(LevelOfNumber(n).value) else Failure(NotALevel)
  }

  /**
   * A level's name, written in any mix of cases, is read back as that level,
   * and `NOTSET` is a `logging` constant that is not a level.
   */
  lemma ParseLevelName(l: LogLevel, text: string)
    requires Upper(text) == LevelName(l)
    ensures ParseLevel(text) == Success(l)
  {
  }

  lemma ParseNotSet(text: string)
    requires Upper(text) == "NOTSET"
    ensures ParseLevel(text) == Failure(NotALevel)
  {
  }

  // ---------------------------------------------------------------------------
  // Values
  // ---------------------------------------------------------------------------

  /** A window's `(x, y, width, height, minimized)`. */
  datatype WindowGeometry = WindowGeometry(x: int, y: int, width: int, height: int, minimized: bool)

  /** A value a setting or the global store can hold. */
  datatype SettingValue =
    | StyleValue(style: string)
    | IntValue(n: int)
    | BoolValue(b: bool)
    | TextValue(text: string)
    | LevelValue(level: LogLevel)
    | GeometriesValue(plots: WindowGeometry, project: WindowGeometry, terminal: WindowGeometry, controls: WindowGeometry)
    | NoValue
    | ListValue(list: seq<string>)

  /** Pydantic accepts the value for the field: the declared type, and a positive font size. */
  predicate Fits(s: Setting, v: SettingValue)
  {
    match s
    case Style => v == StyleValue("light")
    case EditorFontsize | TerminalFontsize => v.IntValue? && v.n > 0
    case LiveRecalculate | ClearTerminal => v.BoolValue?
    case LogPath => v.TextValue?
    case LogLevelSetting => v.LevelValue?
    case MdiDefaults => v.GeometriesValue?
  }

  /** The field defaults; the window geometries default to `None`. */
  function Default(s: Setting): SettingValue
  {
    match s
    case Style => StyleValue("light")
    case EditorFontsize | TerminalFontsize => IntValue(12)
    case LiveRecalculate | ClearTerminal => BoolValue(true)
    case LogPath => TextValue("logs/rascal.log")
    case LogLevelSetting => LevelValue(Info)
    case MdiDefaults => NoValue
  }

  // ---------------------------------------------------------------------------
  // Layering
  // ---------------------------------------------------------------------------

  /** The settings counted as set: the declared fields given explicitly (other keyword arguments are ignored). */
  function ExplicitSet(version: Version, explicit: map<Setting, SettingValue>): (r: set<Setting>)
    ensures forall s :: s in r <==> s in explicit && s in Declared(version)
  {
    set s | s in explicit && s in Declared(version)
  }

  /** The value a setting ends up with: explicit, else global, else default. */
  function Layered(version: Version, s: Setting, explicit: map<Setting, SettingValue>, store: map<string, SettingValue>): SettingValue
  {
    if s in explicit then explicit[s]
    else if GlobalName(version, s) in store then store[GlobalName(version, s)]
    else Default(s)
  }

  function InitialValues(version: Version, explicit: map<Setting, SettingValue>, store: map<string, SettingValue>): (r: map<Setting, SettingValue>)
    ensures r.Keys == DeclaredSet(version)
  {
    map s | s in Declared(version) :: Layered(version, s, explicit, store)
  }

  /**
   * Constructing the settings succeeds iff every explicit value and every
   * global value taken for an unset field passes validation.
   */
  predicate Accepts(version: Version, explicit: map<Setting, SettingValue>, store: map<string, SettingValue>)
  {
    forall s :: s in Declared(version) ==>
      (s in explicit ==> Fits(s, explicit[s]))
      && (s !in explicit && GlobalName(version, s) in store ==> Fits(s, store[GlobalName(version, s)]))
  }

  /** Every explicit value of a declared field passes validation. */
  predicate ExplicitFit(version: Version, explicit: map<Setting, SettingValue>)
  {
    forall s :: s in explicit && s in Declared(version) ==> Fits(s, explicit[s])
  }

  /** The declared fields with their explicit values, the rest at their defaults. */
  function ExplicitValues(version: Version, explicit: map<Setting, SettingValue>): (r: map<Setting, SettingValue>)
    ensures r.Keys == DeclaredSet(version)
  {
    map s | s in Declared(version) :: if s in explicit then explicit[s] else Default(s)
  }

  /** Every unset field among `fields` that has a global value can take it. */
  predicate GlobalsFit(version: Version, fieldsSet: set<Setting>, store: map<string, SettingValue>, fields: seq<Setting>)
  {
    forall s :: s in fields && s !in fieldsSet && GlobalName(version, s) in store ==> Fits(s, store[GlobalName(version, s)])
  }

  /** The values after the unset fields among `fields` take the global value the store holds for them. */
  function WithGlobals(version: Version, values: map<Setting, SettingValue>, fieldsSet: set<Setting>,
                       store: map<string, SettingValue>, fields: seq<Setting>): (r: map<Setting, SettingValue>)
    ensures r.Keys == values.Keys
  {
    map s | s in values :: if s in fields && s !in fieldsSet && GlobalName(version, s) in store then store[GlobalName(version, s)] else values[s]
  }

  /** One more field in the loop of `model_post_init`: its global value must fit when it is unset and the store has one. */
  lemma GlobalsFitStep(version: Version, fieldsSet: set<Setting>, store: map<string, SettingValue>,
                       fields: seq<Setting>, s: Setting)
    ensures GlobalsFit(version, fieldsSet, store, fields + [s])
            <==> GlobalsFit(version, fieldsSet, store, fields)
                 && (s !in fieldsSet && GlobalName(version, s) in store ==> Fits(s, store[GlobalName(version, s)]))
  {
    assert forall t :: t in fields + [s] <==> t in fields || t == s;
  }

  /** One more field in the loop of `model_post_init`: it takes its global value when unset and the store has one. */
  lemma WithGlobalsStep(version: Version, values: map<Setting, SettingValue>, fieldsSet: set<Setting>,
                        store: map<string, SettingValue>, fields: seq<Setting>, s: Setting)
    requires s in values
    ensures WithGlobals(version, values, fieldsSet, store, fields + [s])
            == if s !in fieldsSet && GlobalName(version, s) in store
               then WithGlobals(version, values, fieldsSet, store, fields)[s := store[GlobalName(version, s)]]
               else WithGlobals(version, values, fieldsSet, store, fields)
  {
    var before := WithGlobals(version, values, fieldsSet, store, fields);
    var after := WithGlobals(version, values, fieldsSet, store, fields + [s]);
    var expected := if s !in fieldsSet && GlobalName(version, s) in store
                    then before[s := store[GlobalName(version, s)]] else before;
    forall t | t in after
      ensures after[t] == expected[t]
    {
      assert t in fields + [s] <==> t in fields || t == s;
    }
    MapsAgree(after, expected);
  }

  /** Two maps with the same keys and the same value at each key are equal. */
  lemma MapsAgree<K, V>(a: map<K, V>, b: map<K, V>)
    requires a.Keys == b.Keys && forall k :: k in a ==> a[k] == b[k]
    ensures a == b
  {
  }

  /** `Settings`: the setting values and pydantic's `model_fields_set`. */
  class Settings {
    const version: Version
    var values: map<Setting, SettingValue>
    var fieldsSet: set<Setting>

    ghost predicate Valid()
      reads this
    {
      values.Keys == DeclaredSet(version) && fieldsSet <= DeclaredSet(version)
    }

    /** Pydantic's `__init__` up to `model_post_init`: the explicit values over the defaults. */
    constructor(version: Version, explicit: map<Setting, SettingValue>)
      ensures Valid() && this.version == version
      ensures values == ExplicitValues(version, explicit)
      ensures fieldsSet == ExplicitSet(version, explicit)
    {
      this.version := version;
      values := ExplicitValues(version, explicit);
      fieldsSet := ExplicitSet(version, explicit);
    }

    /**
     * `model_post_init`: each field not set explicitly takes its global value
     * when the store has one; the assignment marks the field as set and the
     * loop unmarks it again. `ok` is false when an assignment fails validation.
     */
    method PostInit(store: map<string, SettingValue>) returns (ok: bool)
      requires Valid()
      modifies this
      ensures Valid() && fieldsSet == old(fieldsSet)
      ensures ok <==> GlobalsFit(version, old(fieldsSet), store, Declared(version))
      ensures ok ==> values == WithGlobals(version, old(values), old(fieldsSet), store, Declared(version))
    {
      var fields := Declared(version);
      var i := 0;
      while i < |fields|
        invariant 0 <= i <= |fields|
        invariant Valid() && fieldsSet == old(fieldsSet)
        invariant GlobalsFit(version, fieldsSet, store, fields[..i])
        invariant values == WithGlobals(version, old(values), fieldsSet, store, fields[..i])
      {
        var s := fields[i];
        assert fields[..i + 1] == fields[..i] + [s];
        GlobalsFitStep(version, fieldsSet, store, fields[..i], s);
        WithGlobalsStep(version, old(values), fieldsSet, store, fields[..i], s);
        if s !in fieldsSet && GlobalName(version, s) in store {
          var v := store[GlobalName(version, s)];
          if !Fits(s, v) {
            assert !GlobalsFit(version, fieldsSet, store, fields);
            return false;
          }
          ghost var unset := fieldsSet;
          values := values[s := v];
          fieldsSet := fieldsSet + {s};
          fieldsSet := fieldsSet - {s};
          assert fieldsSet == unset;
        }
        assert values == WithGlobals(version, old(values), fieldsSet, store, fields[..i] + [s]);
        i := i + 1;
      }
      assert fields[..i] == fields;
      return true;
    }

    /** `model_dump_json(exclude_unset=True)`, as the fields it writes and their values. */
    function Saved(): (r: map<Setting, SettingValue>)
      reads this
      requires Valid()
      ensures r.Keys == fieldsSet
      ensures forall s :: s in r ==> r[s] == values[s]
    {
      map s | s in fieldsSet :: values[s]
    }

    /**
     * `set_global_settings`: each set field is written under its global name.
     * The source walks `model_fields_set` in set order; global names are
     * distinct, so walking in declaration order writes the same store.
     */
    method SetGlobalSettings(global: SettingsStore)
      requires Valid()
      modifies global
      ensures global.store == WriteGlobals(old(global.store), version, values, fieldsSet, Declared(version))
    {
      var fields := Declared(version);
      var i := 0;
      while i < |fields|
        invariant 0 <= i <= |fields|
        invariant global.store == WriteGlobals(old(global.store), version, values, fieldsSet, fields[..i])
      {
        assert fields[..i + 1][..i] == fields[..i];
        if fields[i] in fieldsSet {
          global.store := global.store[GlobalName(version, fields[i]) := values[fields[i]]];
        }
        i := i + 1;
      }
      assert fields[..i] == fields;
    }
  }

  /** The store after writing the set fields among `fields`, in order, under their global names. */
  function WriteGlobals(store: map<string, SettingValue>, version: Version, values: map<Setting, SettingValue>,
                        fieldsSet: set<Setting>, fields: seq<Setting>): map<string, SettingValue>
    requires forall s :: s in fieldsSet ==> s in values
  {
    if fields == [] then store
    else
      var s := fields[|fields| - 1];
      var before := WriteGlobals(store, version, values, fieldsSet, fields[..|fields| - 1]);
      if s in fieldsSet then before[GlobalName(version, s) := values[s]] else before
  }

  /** Writing the globals puts each set field's value under its global name. */
  lemma {:induction false} WriteGlobalsWrites(store: map<string, SettingValue>, version: Version, values: map<Setting, SettingValue>,
                                              fieldsSet: set<Setting>, fields: seq<Setting>, s: Setting)
    requires forall t :: t in fieldsSet ==> t in values
    requires s in fields && s in fieldsSet
    ensures GlobalName(version, s) in WriteGlobals(store, version, values, fieldsSet, fields)
    ensures WriteGlobals(store, version, values, fieldsSet, fields)[GlobalName(version, s)] == values[s]
    decreases |fields|
  {
    var init := fields[..|fields| - 1];
    var last := fields[|fields| - 1];
    if s != last {
      assert s in init by {
        assert fields == init + [last];
      }
      WriteGlobalsWrites(store, version, values, fieldsSet, init, s);
      if GlobalName(version, s) == GlobalName(version, last) {
        GlobalNameInjective(version, s, last);
      }
    }
  }

  /** Writing the globals leaves every name that is not a set field's global name as it was. */
  lemma {:induction false} WriteGlobalsKeeps(store: map<string, SettingValue>, version: Version, values: map<Setting, SettingValue>,
                                             fieldsSet: set<Setting>, fields: seq<Setting>, key: string)
    requires forall t :: t in fieldsSet ==> t in values
    requires forall t :: t in fields && t in fieldsSet ==> GlobalName(version, t) != key
    ensures key in WriteGlobals(store, version, values, fieldsSet, fields) <==> key in store
    ensures key in store ==> WriteGlobals(store, version, values, fieldsSet, fields)[key] == store[key]
    decreases |fields|
  {
    if fields != [] {
      var init := fields[..|fields| - 1];
      assert forall t :: t in init ==> t in fields;
      WriteGlobalsKeeps(store, version, values, fieldsSet, init, key);
    }
  }

  /**
   * Written globals are what a later session starts from: settings
   * constructed with nothing explicit from the written store take each
   * written field's value, and none of them counts as set.
   */
  lemma GlobalsRoundTrip(version: Version, values: map<Setting, SettingValue>, fieldsSet: set<Setting>,
                         store: map<string, SettingValue>, s: Setting)
    requires values.Keys == DeclaredSet(version) && fieldsSet <= DeclaredSet(version)
    requires s in fieldsSet
    ensures var written := WriteGlobals(store, version, values, fieldsSet, Declared(version));
      InitialValues(version, map[], written)[s] == values[s]
    ensures ExplicitSet(version, map[]) == {}
  {
    WriteGlobalsWrites(store, version, values, fieldsSet, Declared(version), s);
  }

  /**
   * Saving writes the explicitly set fields, and validating the saved file
   * again under the same global store gives the same values and the same
   * set fields.
   */
  lemma SaveReloadSame(version: Version, explicit: map<Setting, SettingValue>, store: map<string, SettingValue>)
    ensures var saved := map s | s in ExplicitSet(version, explicit) :: InitialValues(version, explicit, store)[s];
      && ExplicitSet(version, saved) == ExplicitSet(version, explicit)
      && InitialValues(version, saved, store) == InitialValues(version, explicit, store)
  {
    var saved := map s | s in ExplicitSet(version, explicit) :: InitialValues(version, explicit, store)[s];
    assert forall s :: s in saved ==> saved[s] == explicit[s];
    var again, first := InitialValues(version, saved, store), InitialValues(version, explicit, store);
    forall s | s in again
      ensures again[s] == first[s]
    {
      if s in explicit {
        assert s in saved;
      }
    }
    MapsAgree(again, first);
  }

  /**
   * Validating the explicit values and then taking the globals for the
   * fields left unset gives the layered values and accepts the same inputs.
   */
  lemma ConstructionInTwoSteps(version: Version, explicit: map<Setting, SettingValue>, store: map<string, SettingValue>)
    ensures Accepts(version, explicit, store)
        <==> ExplicitFit(version, explicit) && GlobalsFit(version, ExplicitSet(version, explicit), store, Declared(version))
    ensures WithGlobals(version, ExplicitValues(version, explicit), ExplicitSet(version, explicit), store, Declared(version))
         == InitialValues(version, explicit, store)
  {
    ExplicitThenGlobalsAccepts(version, explicit, store);
    ExplicitThenGlobalsValues(version, explicit, store);
  }

  lemma ExplicitThenGlobalsAccepts(version: Version, explicit: map<Setting, SettingValue>, store: map<string, SettingValue>)
    ensures Accepts(version, explicit, store)
        <==> ExplicitFit(version, explicit) && GlobalsFit(version, ExplicitSet(version, explicit), store, Declared(version))
  {
  }

  lemma ExplicitThenGlobalsValues(version: Version, explicit: map<Setting, SettingValue>, store: map<string, SettingValue>)
    ensures WithGlobals(version, ExplicitValues(version, explicit), ExplicitSet(version, explicit), store, Declared(version))
         == InitialValues(version, explicit, store)
  {
    var two := WithGlobals(version, ExplicitValues(version, explicit), ExplicitSet(version, explicit), store, Declared(version));
    var one := InitialValues(version, explicit, store);
    forall s | s in two
      ensures two[s] == one[s]
    {
    }
    MapsAgree(two, one);
  }

  /** Constructing settings: validation of the explicit values, then `model_post_init`. */
  method NewSettings(version: Version, explicit: map<Setting, SettingValue>, store: map<string, SettingValue>)
    returns (r: Result<Settings, string>)
    ensures r.Success? <==> Accepts(version, explicit, store)
    ensures r.Success? ==> fresh(r.value) && r.value.Valid() && r.value.version == version
    ensures r.Success? ==> r.value.values == InitialValues(version, explicit, store)
    ensures r.Success? ==> r.value.fieldsSet == ExplicitSet(version, explicit)
  {
    ConstructionInTwoSteps(version, explicit, store);
    if !ExplicitFit(version, explicit) {
      return Failure("validation error");
    }
    var settings := new Settings(version, explicit);
    var ok := settings.PostInit(store);
    if !ok {
      return Failure("validation error");
    }
    return Success(settings);
  }

  // ---------------------------------------------------------------------------
  // The global store and recent projects
  // ---------------------------------------------------------------------------

  /** The global store's key for the recent projects. */
  const RecentProjectsKey: string := "internal/recent_projects"

  /**
   * What the INI-format store gives back for a written list of strings:
   * an empty list is written as `@Invalid()` and read back as no value, a
   * one-item list is written as its item alone and read back as a string,
   * and a longer list is read back as the list.
   */
  function IniStored(list: seq<string>): (v: SettingValue)
    ensures list == [] ==> v == NoValue
    ensures |list| == 1 ==> v == TextValue(list[0])
    ensures |list| > 1 ==> v == ListValue(list)
  {
    if list == [] then NoValue else if |list| == 1 then TextValue(list[0]) else ListValue(list)
  }

  /** Iterating a Python string: its characters, each a one-character string. */
  function Characters(t: string): (r: seq<string>)
    ensures |r| == |t| && forall i :: 0 <= i < |t| ==> r[i] == [t[i]]
  {
    seq(|t|, i requires 0 <= i < |t| => [t[i]])
  }

  /**
   * The stored recent projects as the loop of `update_recent_projects`
   * goes through them: a list item by item, a string character by
   * character, and a missing entry (or one this function never writes)
   * as no projects.
   */
  function StoredRecent(store: map<string, SettingValue>): (r: seq<string>)
    ensures RecentProjectsKey in store && store[RecentProjectsKey].ListValue? ==> r == store[RecentProjectsKey].list
    ensures RecentProjectsKey in store && store[RecentProjectsKey].TextValue? ==> r == Characters(store[RecentProjectsKey].text)
    ensures RecentProjectsKey !in store ==> r == []
  {
    if RecentProjectsKey !in store then []
    else match store[RecentProjectsKey]
      case ListValue(list) => list
      case TextValue(text) => Characters(text)
      case _ => []
  }

  /** The stored recent projects as evidently intended: a string read back is the one project it names. */
  function StoredRecentAsList(store: map<string, SettingValue>): (r: seq<string>)
  {
    if RecentProjectsKey !in store then []
    else match store[RecentProjectsKey]
      case ListValue(list) => list
      case TextValue(text) => [text]
      case _ => []
  }

  /** Read as intended, the store gives back exactly the list written to it. */
  lemma StoredListRoundTrip(store: map<string, SettingValue>, list: seq<string>)
    ensures StoredRecentAsList(store[RecentProjectsKey := IniStored(list)]) == list
  {
  }

  /** Read as written, the round trip holds exactly for lists not of one item, or of one item of at most one character. */
  lemma StoredRecentRoundTrip(store: map<string, SettingValue>, list: seq<string>)
    ensures StoredRecent(store[RecentProjectsKey := IniStored(list)]) == list <==> |list| != 1 || |list[0]| == 1
  {
    if |list| == 1 {
      var r := StoredRecent(store[RecentProjectsKey := IniStored(list)]);
      assert r == Characters(list[0]);
      if |list[0]| == 1 {
        assert r == [[list[0][0]]];
        assert [list[0][0]] == list[0];
      } else if r == list {
        assert |r| == |list[0]|;
      }
    }
  }

  /** The stored projects other than `path` that still exist, in their stored order. */
  function Survivors(stored: seq<string>, path: Option<string>, existing: set<string>): (r: seq<string>)
    ensures |r| <= |stored|
  {
    if stored == [] then []
    else (if Some(stored[0]) != path && stored[0] in existing then [stored[0]] else []) + Survivors(stored[1..], path, existing)
  }

  /** A stored path survives iff it exists and is not the new path. */
  lemma {:induction false} SurvivorsMembership(stored: seq<string>, path: Option<string>, existing: set<string>, q: string)
    ensures q in Survivors(stored, path, existing) <==> q in stored && q in existing && Some(q) != path
    decreases |stored|
  {
    if stored != [] {
      SurvivorsMembership(stored[1..], path, existing, q);
      assert stored == [stored[0]] + stored[1..];
    }
  }

  lemma {:induction false} SurvivorsAppend(stored: seq<string>, x: string, path: Option<string>, existing: set<string>)
    ensures Survivors(stored + [x], path, existing)
         == Survivors(stored, path, existing) + (if Some(x) != path && x in existing then [x] else [])
    decreases |stored|
  {
    if stored == [] {
      assert [x][1..] == [];
    } else {
      assert (stored + [x])[1..] == stored[1..] + [x];
      SurvivorsAppend(stored[1..], x, path, existing);
    }
  }

  lemma {:induction false} SurvivorsNoDuplicates(stored: seq<string>, path: Option<string>, existing: set<string>)
    requires NoDuplicates(stored)
    ensures NoDuplicates(Survivors(stored, path, existing))
    decreases |stored|
  {
    if stored != [] {
      assert NoDuplicates(stored[1..]) by {
        forall i, j | 0 <= i < j < |stored[1..]|
          ensures stored[1..][i] != stored[1..][j]
        {
          assert stored[1..][i] == stored[i + 1] && stored[1..][j] == stored[j + 1];
        }
      }
      SurvivorsNoDuplicates(stored[1..], path, existing);
      var rest := Survivors(stored[1..], path, existing);
      forall k | 0 <= k < |rest|
        ensures rest[k] != stored[0]
      {
        SurvivorsMembership(stored[1..], path, existing, rest[k]);
        var j :| 0 <= j < |stored[1..]| && stored[1..][j] == rest[k];
        assert stored[j + 1] == rest[k];
      }
    }
  }

  /**
   * The updated list: the given path first, then the stored projects other
   * than it that still exist, in their stored order, cut to ten.
   */
  function RecentProjects(path: Option<string>, stored: seq<string>, existing: set<string>): (r: seq<string>)
  {
    var all := (if path.Some? then [path.value] else []) + Survivors(stored, path, existing);
    if |all| <= 10 then all else all[..10]
  }

  /** The list holds at most ten paths and starts with the given path. */
  lemma RecentProjectsHead(path: Option<string>, stored: seq<string>, existing: set<string>)
    ensures |RecentProjects(path, stored, existing)| <= 10
    ensures path.Some? ==> |RecentProjects(path, stored, existing)| > 0 && RecentProjects(path, stored, existing)[0] == path.value
  {
  }

  /**
   * After the given path the list holds stored paths that exist and differ
   * from it; when it holds fewer than ten, every such stored path is there.
   */
  lemma RecentProjectsKept(path: Option<string>, stored: seq<string>, existing: set<string>, q: string)
    ensures var r := RecentProjects(path, stored, existing);
      (q in r && Some(q) != path ==> q in stored && q in existing)
    ensures var r := RecentProjects(path, stored, existing);
      (|r| < 10 && q in stored && q in existing && Some(q) != path ==> q in r)
  {
    var kept := Survivors(stored, path, existing);
    var head := if path.Some? then [path.value] else [];
    var r := RecentProjects(path, stored, existing);
    SurvivorsMembership(stored, path, existing, q);
    if q in r && Some(q) != path {
      var i :| 0 <= i < |r| && r[i] == q;
      assert i >= |head|;
      assert kept[i - |head|] == q;
    }
    if |r| < 10 && q in kept {
      var k :| 0 <= k < |kept| && kept[k] == q;
      assert r[k + |head|] == q;
    }
  }

  /** A stored list without repeats gives an updated list without repeats. */
  lemma RecentProjectsNoDuplicates(path: Option<string>, stored: seq<string>, existing: set<string>)
    requires NoDuplicates(stored)
    ensures NoDuplicates(RecentProjects(path, stored, existing))
  {
    var kept := Survivors(stored, path, existing);
    var head := if path.Some? then [path.value] else [];
    var r := RecentProjects(path, stored, existing);
    SurvivorsNoDuplicates(stored, path, existing);
    forall i, j | 0 <= i < j < |r|
      ensures r[i] != r[j]
    {
      assert r[j] == kept[j - |head|];
      if i < |head| {
        SurvivorsMembership(stored, path, existing, r[j]);
      } else {
        assert r[i] == kept[i - |head|];
      }
    }
  }

  /** The global settings store, Qt's `QSettings("RasCAL-2", "RasCAL-2")`. */
  class SettingsStore {
    var store: map<string, SettingValue>

    constructor(initial: map<string, SettingValue>)
      ensures store == initial
    {
      store := initial;
    }

    /**
     * `update_recent_projects` as written: the updated list is computed
     * from the store's value as the loop iterates it, stored, and
     * returned. `existing` is the set of paths that exist on disk.
     */
    method UpdateRecentProjects(path: Option<string>, existing: set<string>) returns (r: seq<string>)
      modifies this
      ensures r == RecentProjects(path, StoredRecent(old(store)), existing)
      ensures store == old(store)[RecentProjectsKey := IniStored(r)]
    {
      r := MergeRecent(path, StoredRecent(store), existing);
      store := store[RecentProjectsKey := IniStored(r)];
    }

    /** `update_recent_projects` as evidently intended: the stored value is read back as the list that was written. */
    method UpdateRecentProjectsAsList(path: Option<string>, existing: set<string>) returns (r: seq<string>)
      modifies this
      ensures r == RecentProjects(path, StoredRecentAsList(old(store)), existing)
      ensures store == old(store)[RecentProjectsKey := IniStored(r)]
    {
      r := MergeRecent(path, StoredRecentAsList(store), existing);
      store := store[RecentProjectsKey := IniStored(r)];
    }
  }

  /** The loop of `update_recent_projects`: the given path, then each stored project that survives, cut to ten. */
  method MergeRecent(path: Option<string>, recent: seq<string>, existing: set<string>) returns (updated: seq<string>)
    ensures updated == RecentProjects(path, recent, existing)
  {
    updated := if path.Some? then [path.value] else [];
    var i := 0;
    while i < |recent|
      invariant 0 <= i <= |recent|
      invariant updated == (if path.Some? then [path.value] else []) + Survivors(recent[..i], path, existing)
    {
      SurvivorsAppend(recent[..i], recent[i], path, existing);
      assert recent[..i + 1] == recent[..i] + [recent[i]];
      if Some(recent[i]) != path && recent[i] in existing {
        updated := updated + [recent[i]];
      }
      i := i + 1;
    }
    assert recent[..i] == recent;
    if |updated| > 10 {
      updated := updated[..10];
    }
  }

  /**
   * As written, a single saved project is read back as a string, and the
   * loop keeps its characters instead: after saving `/p` alone and then
   * `/q`, with `/` and `/p` on disk, the list is `/q` then `/`, and `/p`
   * is lost.
   */
  lemma OneProjectReadAsCharacters(store: map<string, SettingValue>)
    ensures StoredRecent(store[RecentProjectsKey := IniStored(["/p"])]) == ["/", "p"]
    ensures RecentProjects(Some("/q"), StoredRecent(store[RecentProjectsKey := IniStored(["/p"])]), {"/", "/p"}) == ["/q", "/"]
  {
    var stored := StoredRecent(store[RecentProjectsKey := IniStored(["/p"])]);
    assert stored == Characters("/p");
    assert stored == ["/", "p"];
    assert Survivors(stored[1..], Some("/q"), {"/", "/p"}) == [];
  }

  /**
   * As intended, saving a project keeps the one saved before it: the
   * second update's list is the new path followed by the earlier one.
   */
  lemma SecondSaveKeepsFirst(store: map<string, SettingValue>, p: string, q: string, existing: set<string>)
    requires p != q && p in existing
    ensures RecentProjects(Some(q), StoredRecentAsList(store[RecentProjectsKey := IniStored(RecentProjects(Some(p), StoredRecentAsList(store), existing))]), existing)[..2] == [q, p]
  {
    var first := RecentProjects(Some(p), StoredRecentAsList(store), existing);
    RecentProjectsHead(Some(p), StoredRecentAsList(store), existing);
    var stored := StoredRecentAsList(store[RecentProjectsKey := IniStored(first)]);
    StoredListRoundTrip(store, first);
    assert stored[0] == p;
    assert Survivors(stored, Some(q), existing) == [p] + Survivors(stored[1..], Some(q), existing);
  }

  /** Recording recent projects never changes a setting's global value. */
  lemma RecentProjectsKeySeparate(version: Version, s: Setting)
    ensures GlobalName(version, s) != RecentProjectsKey
  {
    GlobalNameShape(version, s);
    assert GlobalName(version, s)[0] == Group(version, s)[0] != 'i';
    assert RecentProjectsKey[0] == 'i';
  }
}
