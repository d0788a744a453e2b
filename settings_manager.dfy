/** The backend's settings store (`SettingsManager` in settings_manager.py):
    a dictionary merged over seven defaults and persisted to settings.json.
    The file is modelled as an abstract map (`file`), its readability and
    parse result as arguments, and each write's success as a flag. */
module BackendSettings {
  import opened Common

  function Defaults(): (d: map<string, Value>)
    ensures |d.Keys| == 7
  {
    var d := map[
      "ai_model" := Str("orca-mini-3b-gguf2-q4_0.gguf"),
      "mock_mode" := Bool(false),
      "voice_enabled" := Bool(true),
      "backend_port" := Int(8000),
      "theme" := Str("dark"),
      "auto_start" := Bool(false),
      "log_level" := Str("INFO")];
    assert d.Keys == {"ai_model", "mock_mode", "voice_enabled", "backend_port", "theme", "auto_start", "log_level"};
    d
  }

  /** What opening and parsing settings.json yields. */
  datatype FileRead = Absent | Parsed(data: Value) | Unreadable

  /** The store's observable state: the in-memory settings and the file. */
  datatype Store = Store(settings: map<string, Value>, file: Option<map<string, Value>>)

  // ------------------------------------------------------------ load_settings

  /** `load_settings`: parsed file contents merged over the defaults; a
      missing file, an unreadable one, or contents that are not an object
      give the defaults. */
  function LoadedSettings(read: FileRead): (r: map<string, Value>)
    ensures forall k :: k in Defaults() ==> k in r
    ensures read.Parsed? && read.data.Obj? ==>
      && (forall k :: k in read.data.fields ==> k in r && r[k] == read.data.fields[k])
      && (forall k :: k in r && k !in read.data.fields ==> k in Defaults() && r[k] == Defaults()[k])
    ensures !(read.Parsed? && read.data.Obj?) ==> r == Defaults()
  {
    if read.Parsed? && read.data.Obj? then Defaults() + read.data.fields else Defaults()
  }

  /** The file after loading: a missing file is created with the defaults
      when that write succeeds. */
  function FileAfterLoad(read: FileRead, before: Option<map<string, Value>>, writeOk: bool): Option<map<string, Value>>
  {
    if read.Absent? && writeOk then Some(Defaults()) else before
  }

  // ------------------------------------------------------------ save_settings

  datatype Saved = Saved(store: Store, ok: bool)

  /** `save_settings(arg)`: writes `arg or self.settings`; on a successful
      write a non-empty argument becomes the new settings. A failed write
      changes nothing and reports False. */
  function SaveStep(s: Store, arg: Option<map<string, Value>>, writeOk: bool): (r: Saved)
    ensures r.ok == writeOk
    ensures !writeOk ==> r.store == s
    ensures writeOk && (arg.None? || arg.value == map[]) ==> r.store == Store(s.settings, Some(s.settings))
    ensures writeOk && arg.Some? && arg.value != map[] ==> r.store == Store(arg.value, Some(arg.value))
  {
    var toSave := if arg.Some? && arg.value != map[] then arg.value else s.settings;
    if !writeOk then Saved(s, false)
    else Saved(Store(if arg.Some? && arg.value != map[] then arg.value else s.settings, Some(toSave)), true)
  }

  // ----------------------------------------------------- update_from_frontend

  /** `key_mapping` from frontend localStorage names to backend keys, in
      declaration order. */
  const Mapping: seq<(string, string)> := [
    ("jarvis-ai-model", "ai_model"),
    ("jarvis-mock-mode", "mock_mode"),
    ("jarvis-voice-enabled", "voice_enabled"),
    ("jarvis-backend-port", "backend_port"),
    ("jarvis-theme", "theme"),
    ("jarvis-auto-start", "auto_start")]

  predicate IsBoolKey(k: string) {
    k == "mock_mode" || k == "voice_enabled" || k == "auto_start"
  }

  /** `str(v).lower() == 'true'`: only True and text spelling "true" in any
      letter case. */
  function FrontendBool(v: Value): (r: bool)
    ensures v.Str? ==> (r <==> ToLower(v.s) == "true")
    ensures v.Bool? ==> r == v.b
  {
    v == Bool(true) || (v.Str? && ToLower(v.s) == "true")
  }

  /** Python's int(v); a bool counts as 1 or 0. */
  function PyInt(v: Value): (r: Result<int>)
    ensures v.Int? ==> r == Ok(v.i)
    ensures v.Str? && v.s != [] && AllDigits(v.s) ==> r == Ok(DigitsValue(v.s))
    ensures v.Null? || v.List? || v.Obj? || v.Undefined? ==> r.Raised?
  {
    match v
    case Int(i) => Ok(i)
    case Bool(b) => Ok(if b then 1 else 0)
    case Str(s) =>
      (match PyIntOfString(s)
       case Some(n) => Ok(n)
       case None => Raised("ValueError"))
    case _ => Raised("TypeError")
  }


  /** The conversion `update_from_frontend` applies to a mapped value. */
  function Convert(backendKey: string, v: Value): Result<Value>
  {
    if IsBoolKey(backendKey) then Ok(Bool(FrontendBool(v)))
    else if backendKey == "backend_port" then
      (match PyInt(v)
       case Ok(n) => Ok(Int(n))
       case Raised(e) => Raised(e))
    else Ok(v)
  }

  function NumericValue(v: Value): int
    requires v.Bool? || v.Int?
  {
    if v.Bool? then (if v.b then 1 else 0) else v.i
  }

  /** Python's `==` on values: True == 1 and False == 0. */
  predicate PyEq(a: Value, b: Value) {
    if (a.Bool? || a.Int?) && (b.Bool? || b.Int?) then NumericValue(a) == NumericValue(b) else a == b
  }

  datatype Applied = Converted(settings: map<string, Value>, updated: bool) | ConversionFailed(settings: map<string, Value>)

  /** The mapping loop from a given position: present keys are converted and
      written when they differ from the current value; a failed conversion
      stops the loop with the writes made so far kept. */
  function Apply(cur: map<string, Value>, updated: bool, fs: map<string, Value>, pairs: seq<(string, string)>): (r: Applied)
    decreases |pairs|
  {
    if pairs == [] then Converted(cur, updated)
    else
      var fk := pairs[0].0;
      var bk := pairs[0].1;
      if fk !in fs then Apply(cur, updated, fs, pairs[1..])
      else
        match Convert(bk, fs[fk])
        case Raised(_) => ConversionFailed(cur)
        case Ok(v) =>
          if !PyEq(PyGet(cur, bk, Null), v) then Apply(cur[bk := v], true, fs, pairs[1..])
          else Apply(cur, updated, fs, pairs[1..])
  }

  function BackendKeys(pairs: seq<(string, string)>): set<string> {
    set i | 0 <= i < |pairs| :: pairs[i].1
  }

  function FrontendKeys(pairs: seq<(string, string)>): set<string> {
    set i | 0 <= i < |pairs| :: pairs[i].0
  }

  /** Keys outside the mapping's backend keys are never touched. */
  lemma {:induction false} ApplyKeepsUnmappedKeys(cur: map<string, Value>, updated: bool, fs: map<string, Value>,
                                                  pairs: seq<(string, string)>, k: string)
    requires k !in BackendKeys(pairs)
    ensures var r := Apply(cur, updated, fs, pairs);
            (k in r.settings <==> k in cur) && (k in cur ==> r.settings[k] == cur[k])
    decreases |pairs|
  {
    if pairs != [] {
      assert pairs[0].1 in BackendKeys(pairs);
      assert BackendKeys(pairs[1..]) <= BackendKeys(pairs) by {
        forall j | 0 <= j < |pairs[1..]| ensures pairs[1..][j].1 in BackendKeys(pairs) {
          assert pairs[1..][j] == pairs[j + 1];
        }
      }
      var fk := pairs[0].0;
      var bk := pairs[0].1;
      if fk in fs && Convert(bk, fs[fk]).Ok? {
        var v := Convert(bk, fs[fk]).value;
        ApplyKeepsUnmappedKeys(cur[bk := v], true, fs, pairs[1..], k);
        ApplyKeepsUnmappedKeys(cur, updated, fs, pairs[1..], k);
      } else if fk !in fs {
        ApplyKeepsUnmappedKeys(cur, updated, fs, pairs[1..], k);
      }
    }
  }

  /** Entries of the frontend object under names outside the mapping have
      no effect. */
  lemma {:induction false} ApplyIgnoresOtherKeys(cur: map<string, Value>, updated: bool, fs: map<string, Value>,
                                                 pairs: seq<(string, string)>)
    ensures Apply(cur, updated, fs, pairs)
         == Apply(cur, updated, map k | k in fs && k in FrontendKeys(pairs) :: fs[k], pairs)
    decreases |pairs|
  {
    if pairs != [] {
      var only := map k | k in fs && k in FrontendKeys(pairs) :: fs[k];
      var rest := map k | k in fs && k in FrontendKeys(pairs[1..]) :: fs[k];
      var restOnly := map k | k in only && k in FrontendKeys(pairs[1..]) :: only[k];
      assert FrontendKeys(pairs[1..]) <= FrontendKeys(pairs) by {
        forall j | 0 <= j < |pairs[1..]| ensures pairs[1..][j].0 in FrontendKeys(pairs) {
          assert pairs[1..][j] == pairs[j + 1];
        }
      }
      assert pairs[0].0 in FrontendKeys(pairs);
      assert rest == restOnly;
      var fk := pairs[0].0;
      var bk := pairs[0].1;
      if fk in fs && Convert(bk, fs[fk]).Ok? {
        var v := Convert(bk, fs[fk]).value;
        ApplyIgnoresOtherKeys(cur[bk := v], true, fs, pairs[1..]);
        ApplyIgnoresOtherKeys(cur[bk := v], true, only, pairs[1..]);
        ApplyIgnoresOtherKeys(cur, updated, fs, pairs[1..]);
        ApplyIgnoresOtherKeys(cur, updated, only, pairs[1..]);
      } else if fk !in fs {
        ApplyIgnoresOtherKeys(cur, updated, fs, pairs[1..]);
        ApplyIgnoresOtherKeys(cur, updated, only, pairs[1..]);
      }
    }
  }

  predicate DistinctBackendKeys(pairs: seq<(string, string)>) {
    forall i, j :: 0 <= i < j < |pairs| ==> pairs[i].1 != pairs[j].1
  }

  /** When every conversion succeeds, each mapped key present in the
      frontend object ends up holding a value equal (in Python's sense) to
      its converted value; `get` of a key still absent is None, so a None
      value leaves an absent key absent. */
  lemma {:induction false} ApplyStoresConverted(cur: map<string, Value>, updated: bool, fs: map<string, Value>,
                                                pairs: seq<(string, string)>, i: nat)
    requires DistinctBackendKeys(pairs)
    requires i < |pairs| && pairs[i].0 in fs
    requires Apply(cur, updated, fs, pairs).Converted?
    ensures Convert(pairs[i].1, fs[pairs[i].0]).Ok?
    ensures var r := Apply(cur, updated, fs, pairs).settings;
            PyEq(PyGet(r, pairs[i].1, Null), Convert(pairs[i].1, fs[pairs[i].0]).value)
    decreases |pairs|
  {
    var fk := pairs[0].0;
    var bk := pairs[0].1;
    assert DistinctBackendKeys(pairs[1..]) by {
      forall a, b | 0 <= a < b < |pairs[1..]| ensures pairs[1..][a].1 != pairs[1..][b].1 {
        assert pairs[1..][a] == pairs[a + 1] && pairs[1..][b] == pairs[b + 1];
      }
    }
    assert bk !in BackendKeys(pairs[1..]) by {
      forall j | 0 <= j < |pairs[1..]| ensures pairs[1..][j].1 != bk {
        assert pairs[1..][j] == pairs[j + 1];
      }
    }
    if i == 0 {
      var v := Convert(bk, fs[fk]).value;
      if !PyEq(PyGet(cur, bk, Null), v) {
        ApplyKeepsUnmappedKeys(cur[bk := v], true, fs, pairs[1..], bk);
        assert PyEq(v, v);
      } else {
        ApplyKeepsUnmappedKeys(cur, updated, fs, pairs[1..], bk);
        PyEqSymmetric(PyGet(cur, bk, Null), v);
      }
    } else {
      assert pairs[1..][i - 1] == pairs[i];
      if fk !in fs {
        ApplyStoresConverted(cur, updated, fs, pairs[1..], i - 1);
      } else {
        var v := Convert(bk, fs[fk]).value;
        if !PyEq(PyGet(cur, bk, Null), v) {
          ApplyStoresConverted(cur[bk := v], true, fs, pairs[1..], i - 1);
        } else {
          ApplyStoresConverted(cur, updated, fs, pairs[1..], i - 1);
        }
      }
    }
  }

  lemma PyEqSymmetric(a: Value, b: Value)
    requires PyEq(a, b)
    ensures PyEq(b, a)
  {
  }

  /** Without any write on the way the settings are exactly as before. */
  lemma {:induction false} ApplyNotUpdatedIsUnchanged(cur: map<string, Value>, fs: map<string, Value>,
                                                      pairs: seq<(string, string)>)
    requires Apply(cur, false, fs, pairs) == Converted(Apply(cur, false, fs, pairs).settings, false)
    ensures Apply(cur, false, fs, pairs).settings == cur
    decreases |pairs|
  {
    if pairs != [] {
      var fk := pairs[0].0;
      var bk := pairs[0].1;
      if fk !in fs {
        ApplyNotUpdatedIsUnchanged(cur, fs, pairs[1..]);
      } else {
        var v := Convert(bk, fs[fk]).value;
        if !PyEq(PyGet(cur, bk, Null), v) {
          UpdatedStaysUpdated(cur[bk := v], fs, pairs[1..]);
        } else {
          ApplyNotUpdatedIsUnchanged(cur, fs, pairs[1..]);
        }
      }
    }
  }

  lemma {:induction false} UpdatedStaysUpdated(cur: map<string, Value>, fs: map<string, Value>, pairs: seq<(string, string)>)
    ensures Apply(cur, true, fs, pairs).Converted? ==> Apply(cur, true, fs, pairs).updated
    decreases |pairs|
  {
    if pairs != [] {
      var fk := pairs[0].0;
      var bk := pairs[0].1;
      if fk !in fs {
        UpdatedStaysUpdated(cur, fs, pairs[1..]);
      } else if Convert(bk, fs[fk]).Ok? {
        var v := Convert(bk, fs[fk]).value;
        UpdatedStaysUpdated(cur[bk := v], fs, pairs[1..]);
        UpdatedStaysUpdated(cur, fs, pairs[1..]);
      }
    }
  }

  lemma MappingFacts()
    ensures DistinctBackendKeys(Mapping)
    ensures BackendKeys(Mapping) == {"ai_model", "mock_mode", "voice_enabled", "backend_port", "theme", "auto_start"}
    ensures "log_level" !in BackendKeys(Mapping)
  {
    assert Mapping[0].1 == "ai_model" && Mapping[1].1 == "mock_mode" && Mapping[2].1 == "voice_enabled";
    assert Mapping[3].1 == "backend_port" && Mapping[4].1 == "theme" && Mapping[5].1 == "auto_start";
  }

  // ---------------------------------------------------------- import_settings

  /** The imported entries `import_settings` keeps: those under a default key. */
  function KnownKeysOnly(m: map<string, Value>): (r: map<string, Value>)
    ensures forall k :: k in r <==> k in m && k in Defaults()
    ensures forall k :: k in r ==> r[k] == m[k]
  {
    map k | k in m && k in Defaults() :: m[k]
  }

  /** The object under "settings" when the imported file has the accepted
      shape; None when reading, parsing or the shape check fails. */
  function ImportedSection(read: FileRead): (r: Option<map<string, Value>>)
    ensures r.Some? <==> read.Parsed? && read.data.Obj? && "settings" in read.data.fields
                         && read.data.fields["settings"].Obj?
  {
    if read.Parsed? && read.data.Obj? && "settings" in read.data.fields && read.data.fields["settings"].Obj?
    then Some(read.data.fields["settings"].fields)
    else None
  }

  // -------------------------------------------------------------------- state

  class SettingsManager {
    var settings: map<string, Value>
    /** The contents of settings.json; None while it does not exist. */
    var file: Option<map<string, Value>>

    function Snap(): Store
      reads this
    {
      Store(settings, file)
    }

    /** Construction loads the settings file. */
    constructor (read: FileRead, before: Option<map<string, Value>>, writeOk: bool)
      ensures settings == LoadedSettings(read)
      ensures file == FileAfterLoad(read, before, writeOk)
    {
      settings := LoadedSettings(read);
      file := FileAfterLoad(read, before, writeOk);
    }

    method SaveSettings(arg: Option<map<string, Value>>, writeOk: bool) returns (ok: bool)
      modifies this
      ensures Saved(Snap(), ok) == SaveStep(old(Snap()), arg, writeOk)
    {
      var toSave := if arg.Some? && arg.value != map[] then arg.value else settings;
      if !writeOk {
        return false;
      }
      file := Some(toSave);
      if arg.Some? && arg.value != map[] {
        settings := arg.value;
      }
      return true;
    }

    function Get(key: string, default: Value): (r: Value)
      reads this
      ensures key in settings ==> r == settings[key]
      ensures key !in settings ==> r == default
    {
      PyGet(settings, key, default)
    }

    method Set(key: string, value: Value, writeOk: bool) returns (ok: bool)
      modifies this
      ensures Saved(Snap(), ok) == SaveStep(Store(old(settings)[key := value], old(file)), None, writeOk)
      ensures Get(key, Null) == value
    {
      settings := settings[key := value];
      ok := SaveSettings(None, writeOk);
    }

    method UpdateFromFrontend(fs: map<string, Value>, writeOk: bool) returns (ok: bool)
      modifies this
      ensures match Apply(old(settings), false, fs, Mapping)
              case ConversionFailed(s) => Snap() == Store(s, old(file)) && !ok
              case Converted(s, updated) =>
                if updated then Saved(Snap(), ok) == SaveStep(Store(s, old(file)), None, writeOk)
                else Snap() == Store(s, old(file)) && ok
    {
      var updated := false;
      var i := 0;
      while i < |Mapping|
        invariant 0 <= i <= |Mapping| && file == old(file)
        invariant Apply(settings, updated, fs, Mapping[i..]) == Apply(old(settings), false, fs, Mapping)
      {
        var fk := Mapping[i].0;
        var bk := Mapping[i].1;
        if fk in fs {
          var converted := Convert(bk, fs[fk]);
          if converted.Raised? {
            return false;
          }
          var v := converted.value;
          if !PyEq(PyGet(settings, bk, Null), v) {
            settings := settings[bk := v];
            updated := true;
          }
        }
        i := i + 1;
      }
      if updated {
        ok := SaveSettings(None, writeOk);
      } else {
        ok := true;
      }
    }

    method ImportSettings(read: FileRead, writeOk: bool) returns (ok: bool)
      modifies this
      ensures match ImportedSection(read)
              case None => Snap() == old(Snap()) && !ok
              case Some(m) => Saved(Snap(), ok) == SaveStep(Store(old(settings) + KnownKeysOnly(m), old(file)), None, writeOk)
    {
      var section := ImportedSection(read);
      if section.None? {
        return false;
      }
      settings := settings + KnownKeysOnly(section.value);
      ok := SaveSettings(None, writeOk);
    }

    method ResetToDefaults(writeOk: bool) returns (ok: bool)
      modifies this
      ensures settings == Defaults()
      ensures Saved(Snap(), ok) == SaveStep(Store(Defaults(), old(file)), None, writeOk)
    {
      settings := Defaults();
      ok := SaveSettings(None, writeOk);
    }
  }
}
