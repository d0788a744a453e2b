/** components/settings.js: the renderer's `SettingsManager`.
    - It validates, edits and stores the settings shown in the settings
      dialog.
    - `currentSettings` is reassigned by loading, saving, toggling voice,
      importing and resetting.
    - Calls to the main process are one oracle, `ipcSave`, which answers a
      `save-settings` request with the settings main hands back, or an
      error. Each step also returns the request it made, so "no call was
      made" can be stated.
    The dialog's form elements are a `Form`; a `None` field is a missing
    element. Messages for the chat manager are returned as notices. */
module SettingsView {
  import opened Common

  /** The defaults of the `loadSettings` fallback and of `resetToDefaults`. */
  function Defaults(): (r: Value)
    ensures r.Obj? && r.fields.Keys == {"theme", "voiceEnabled", "autoStart", "pythonPort"}
  {
    Obj(map["theme" := Str("dark"), "voiceEnabled" := Bool(true), "autoStart" := Bool(false), "pythonPort" := Int(8000)])
  }

  const ThemeNames: set<Value> := {Str("dark"), Str("light"), Str("blue")}

  /** `port < 1024 || port > 65535` as JavaScript compares: a port that is
      not a number (NaN) makes both comparisons false. */
  predicate PortOutOfRange(port: Value) {
    var n := JsToNumber(port);
    NumLess(n, 1024) || NumGreater(n, 65535)
  }

  predicate PortInRange(port: Value) {
    var n := JsToNumber(port);
    n.Finite? && 1024.0 <= n.x <= 65535.0
  }

  /** `validateSettings` as settings.js writes it. Reading a property of null
      or undefined throws. */
  function ValidateAsWritten(settings: Value): (r: Result<bool>)
    ensures r.Raised? <==> settings.Null? || settings.Undefined?
    ensures r.Ok? ==> (r.value <==> !PortOutOfRange(Prop(settings, "pythonPort")) && Prop(settings, "theme") in ThemeNames)
  {
    if settings.Null? || settings.Undefined? then Raised("TypeError: Cannot read properties of " + JsString(settings))
    else Ok(!PortOutOfRange(Prop(settings, "pythonPort")) && Prop(settings, "theme") in ThemeNames)
  }

  /** `validateSettings` as its message promises: the port is a number from
      1024 to 65535 and the theme is one of the three names. */
  function Validate(settings: Value): (r: Result<bool>)
    ensures r.Raised? <==> settings.Null? || settings.Undefined?
    ensures r.Ok? ==> (r.value <==> PortInRange(Prop(settings, "pythonPort")) && Prop(settings, "theme") in ThemeNames)
  {
    if settings.Null? || settings.Undefined? then Raised("TypeError: Cannot read properties of " + JsString(settings))
    else Ok(PortInRange(Prop(settings, "pythonPort")) && Prop(settings, "theme") in ThemeNames)
  }

  /** The check a build of settings.js applies: as written, or corrected. */
  function Check(b: Build, settings: Value): (r: Result<bool>)
    ensures b.AsWritten? ==> r == ValidateAsWritten(settings)
    ensures b.Corrected? ==> r == Validate(settings)
  {
    if b.AsWritten? then ValidateAsWritten(settings) else Validate(settings)
  }

  /** The corrected check refuses what the written one lets through: a
      settings file whose port is not a number passes the written check. */
  lemma NonNumericPortPassesAsWritten()
    ensures var s := Obj(map["theme" := Str("dark"), "pythonPort" := Str("abc")]);
            ValidateAsWritten(s) == Ok(true) && Validate(s) == Ok(false)
  {
    var s := Obj(map["theme" := Str("dark"), "pythonPort" := Str("abc")]);
    assert Prop(s, "pythonPort") == Str("abc") && Prop(s, "theme") == Str("dark");
    assert Strip(JavaScript, "abc") == "abc" by {
      assert !IsSpace(JavaScript, "abc"[0]) && !IsSpace(JavaScript, "abc"[2]);
    }
    assert DigitPrefix("abc") == "" by { assert !IsDigit("abc"[0]); }
    assert "abc" != "Infinity";
    assert JsToNumber(Str("abc")) == NaN;
  }

  /** The written check reads a port as JavaScript's Number does, so an
      exponent form is read too: "1e9" is far above 65535 and refused. */
  lemma ExponentPortRefusedAsWritten()
    ensures var s := Obj(map["theme" := Str("dark"), "pythonPort" := Str("1e9")]);
            ValidateAsWritten(s) == Ok(false) && Validate(s) == Ok(false)
  {
    var s := Obj(map["theme" := Str("dark"), "pythonPort" := Str("1e9")]);
    assert Prop(s, "pythonPort") == Str("1e9") && Prop(s, "theme") == Str("dark");
    ExponentPortOutOfRange();
  }

  lemma ExponentPortOutOfRange()
    ensures PortOutOfRange(Str("1e9")) && !PortInRange(Str("1e9"))
  {
    assert JsToNumber(Str("1e9")) == Finite(1000000000.0) by { ExponentLiteral(); }
  }

  /** A settings file with no port at all passes the written check too. */
  lemma MissingPortPassesAsWritten()
    ensures var s := Obj(map["theme" := Str("light")]);
            ValidateAsWritten(s) == Ok(true) && Validate(s) == Ok(false)
  {
    var s := Obj(map["theme" := Str("light")]);
    assert Prop(s, "pythonPort") == Undefined && Prop(s, "theme") == Str("light");
  }

  /** The four form elements. */
  datatype Form = Form(theme: Option<string>, voice: Option<bool>, autoStart: Option<bool>, port: Option<string>)

  /** `getFormData()`. */
  function FormData(form: Form): (r: Value)
    ensures r.Obj? && r.fields.Keys == {"theme", "voiceEnabled", "autoStart", "pythonPort"}
    ensures r.fields["theme"].Str? && r.fields["theme"].s != ""
    ensures r.fields["voiceEnabled"] == Bool(form.voice != Some(false))
    ensures r.fields["autoStart"] == Bool(form.autoStart == Some(true))
    ensures r.fields["pythonPort"].Int? && r.fields["pythonPort"].i != 0
    ensures form.port.None? ==> r.fields["pythonPort"] == Int(8000)
  {
    var theme := if form.theme.Some? && form.theme.value != "" then form.theme.value else "dark";
    Obj(map["theme" := Str(theme), "voiceEnabled" := Bool(form.voice != Some(false)),
            "autoStart" := Bool(form.autoStart == Some(true)), "pythonPort" := Int(FormPort(form.port))])
  }

  /** `parseInt(pythonPortInput?.value) || 8000`. */
  function FormPort(input: Option<string>): (r: int)
    ensures r != 0
    ensures input.None? ==> r == 8000
  {
    var parsed := if input.Some? then JsParseInt(input.value) else None;
    if parsed.Some? && parsed.value != 0 then parsed.value else 8000
  }

  /** parseInt reads a "0x" prefix as hexadecimal, so the port field may
      be written in hexadecimal. */
  lemma FormPortHexadecimal(d: string)
    requires d != [] && AllRadix(d, 16) && RadixValue(d, 16) != 0
    ensures FormPort(Some("0x" + d)) == RadixValue(d, 16)
  {
    HexDigitsParse(d);
  }

  /** On form data both checks agree, since the port is always a number:
      only an imported file can reach the difference. */
  lemma FormDataChecksAgree(form: Form)
    ensures ValidateAsWritten(FormData(form)) == Validate(FormData(form))
  {
  }

  /** An unparsable or zero port reads as 8000; a parsed port is kept. */
  lemma FormPortDefaults(form: Form)
    requires form.port.Some?
    ensures var p := JsParseInt(form.port.value);
            FormData(form).fields["pythonPort"] == Int(if p.Some? && p.value != 0 then p.value else 8000)
  {
  }

  /** `themeColors[theme] || themeColors.dark`. */
  function ThemeColor(theme: string): (r: string)
    ensures theme == "light" ==> r == "#ffffff"
    ensures theme == "blue" ==> r == "#0f1419"
    ensures theme != "light" && theme != "blue" ==> r == "#0a0a0a"
  {
    if theme == "dark" then "#0a0a0a"
    else if theme == "light" then "#ffffff"
    else if theme == "blue" then "#0f1419"
    else "#0a0a0a"
  }

  /** The manager's state: `currentSettings`, the form, the document's
      data-theme and the theme-colour meta tag. */
  datatype View = View(settings: Value, form: Form, dataTheme: string, themeColor: string)

  /** A message for the chat manager. */
  datatype Notice = Notice(text: string, kind: string)

  /** What a step leaves behind: the view, the settings sent to main (if
      any) and the notice shown (if any). */
  datatype Step = Step(view: View, request: Option<Value>, notice: Option<Notice>)

  /** Reading currentSettings' fields throws when it is null or undefined. */
  predicate Unreadable(v: Value) { v.Null? || v.Undefined? }

  /** The theme `updateUI` and `hide` apply. */
  function ThemeOf(settings: Value): string {
    JsString(JsOr(Prop(settings, "theme"), Str("dark")))
  }

  /** `updateUI()`: the existing form elements show the settings and their
      theme is applied. */
  function Refreshed(v: View): (r: View)
    ensures r.settings == v.settings && r.dataTheme == ThemeOf(v.settings) && r.themeColor == ThemeColor(ThemeOf(v.settings))
    ensures r.form.theme.Some? == v.form.theme.Some? && r.form.voice.Some? == v.form.voice.Some?
    ensures r.form.autoStart.Some? == v.form.autoStart.Some? && r.form.port.Some? == v.form.port.Some?
  {
    var s := v.settings;
    var theme := ThemeOf(s);
    v.(form := Form(if v.form.theme.Some? then Some(theme) else None,
                    if v.form.voice.Some? then Some(Prop(s, "voiceEnabled") != Bool(false)) else None,
                    if v.form.autoStart.Some? then Some(Prop(s, "autoStart") == Bool(true)) else None,
                    if v.form.port.Some? then Some(JsString(JsOr(Prop(s, "pythonPort"), Int(8000)))) else None),
       dataTheme := theme, themeColor := ThemeColor(theme))
  }

  lemma PortTextRoundTrip(p: int)
    requires p > 0
    ensures JsParseInt(IntToString(p)) == Some(p)
  {
    DigitsOfNat(p);
  }

  /** Settings that validate, shown in a complete form, read back as
      themselves. */
  lemma FormRoundTrip(v: View, theme: string, voice: bool, auto: bool, port: int)
    requires v.form.theme.Some? && v.form.voice.Some? && v.form.autoStart.Some? && v.form.port.Some?
    requires v.settings == Obj(map["theme" := Str(theme), "voiceEnabled" := Bool(voice), "autoStart" := Bool(auto), "pythonPort" := Int(port)])
    requires Str(theme) in ThemeNames && 1024 <= port <= 65535
    ensures FormData(Refreshed(v).form) == v.settings
  {
    ShownForm(v, theme, voice, auto, port);
    ReadForm(theme, voice, auto, port);
  }

  /** What a complete form shows for such settings. */
  lemma ShownForm(v: View, theme: string, voice: bool, auto: bool, port: int)
    requires v.form.theme.Some? && v.form.voice.Some? && v.form.autoStart.Some? && v.form.port.Some?
    requires v.settings == Obj(map["theme" := Str(theme), "voiceEnabled" := Bool(voice), "autoStart" := Bool(auto), "pythonPort" := Int(port)])
    requires theme != "" && port != 0
    ensures Refreshed(v).form == Form(Some(theme), Some(voice), Some(auto), Some(IntToString(port)))
  {
    var st := v.settings;
    assert Prop(st, "theme") == Str(theme) && Prop(st, "voiceEnabled") == Bool(voice);
    assert Prop(st, "autoStart") == Bool(auto) && Prop(st, "pythonPort") == Int(port);
    assert ThemeOf(st) == theme;
  }

  /** What such a form reads back as. */
  lemma ReadForm(theme: string, voice: bool, auto: bool, port: int)
    requires theme != "" && port > 0
    ensures FormData(Form(Some(theme), Some(voice), Some(auto), Some(IntToString(port))))
            == Obj(map["theme" := Str(theme), "voiceEnabled" := Bool(voice), "autoStart" := Bool(auto), "pythonPort" := Int(port)])
  {
    PortTextRoundTrip(port);
  }

  /** `loadSettings()` once `get-settings` answers: the answer, or the
      defaults when the call fails or `updateUI` throws on it. */
  function LoadStep(v: View, got: Result<Value>): (r: View)
    ensures got.Raised? ==> r.settings == Defaults()
    ensures got.Ok? && !Unreadable(got.value) ==> r.settings == got.value
    ensures r == Refreshed(r)
  {
    var s := if got.Ok? && !Unreadable(got.value) then got.value else Defaults();
    Refreshed(v.(settings := s))
  }

  /** `save()` of build b. */
  function SaveStep(b: Build, v: View, ipcSave: Value -> Result<Value>): (r: Step)
    ensures Check(b, FormData(v.form)) != Ok(true) ==> r == Step(v, None, None)
    ensures Check(b, FormData(v.form)) == Ok(true) ==> r.request == Some(FormData(v.form))
  {
    var newSettings := FormData(v.form);
    if Check(b, newSettings) != Ok(true) then Step(v, None, None)
    else
      match ipcSave(newSettings)
      case Raised(_) => Step(v, Some(newSettings), Some(Notice("Failed to save settings. Please try again.", "error")))
      case Ok(s) =>
        if Unreadable(s) then Step(v.(settings := s), Some(newSettings), Some(Notice("Failed to save settings. Please try again.", "error")))
        else Step(Refreshed(v.(settings := s)), Some(newSettings), Some(Notice("Settings saved successfully!", "success")))
  }

  /** `{...settings}`: the own properties of an object, none for a
      primitive. */
  function Spread(v: Value): map<string, Value> {
    if v.Obj? then v.fields else map[]
  }

  /** `toggleVoice()`: sends the settings with voiceEnabled negated. The
      voice indicators are not part of the view. */
  function ToggleStep(v: View, ipcSave: Value -> Result<Value>): (r: Step)
    ensures Unreadable(v.settings) ==> r == Step(v, None, None)
    ensures !Unreadable(v.settings) ==>
              r.request == Some(Obj(Spread(v.settings)["voiceEnabled" := Bool(!JsTruthy(Prop(v.settings, "voiceEnabled")))]))
  {
    if Unreadable(v.settings) then Step(v, None, None)
    else
      var on := !JsTruthy(Prop(v.settings, "voiceEnabled"));
      var newSettings := Obj(Spread(v.settings)["voiceEnabled" := Bool(on)]);
      match ipcSave(newSettings)
      case Raised(_) => Step(v, Some(newSettings), None)
      case Ok(s) => Step(v.(settings := s), Some(newSettings),
                         Some(Notice(if on then "Voice features enabled" else "Voice features disabled", "normal")))
  }

  /** The request keeps every other setting and negates voiceEnabled; with
      a main process that hands the request back, two toggles restore a
      boolean voiceEnabled and every other setting. */
  lemma ToggleTwiceRestores(v: View, b: bool)
    requires v.settings.Obj? && Prop(v.settings, "voiceEnabled") == Bool(b)
    ensures var once := ToggleStep(v, x => Ok(x));
            && once.request.value.fields.Keys == v.settings.fields.Keys
            && (forall k :: k in v.settings.fields && k != "voiceEnabled" ==> once.request.value.fields[k] == v.settings.fields[k])
            && Prop(once.view.settings, "voiceEnabled") == Bool(!b)
            && ToggleStep(once.view, x => Ok(x)).view.settings == v.settings
  {
    var once := ToggleStep(v, x => Ok(x));
    assert once.view.settings == Obj(v.settings.fields["voiceEnabled" := Bool(!b)]);
    var twice := ToggleStep(once.view, x => Ok(x));
    assert twice.view.settings.fields == v.settings.fields;
  }

  /** The import dialog's file: none chosen, or its text. */
  datatype File = NoFile | Text(text: string)

  /** `importSettings()`'s change handler in build b: settings that parse
      and pass the check are sent and shown; a parse failure or a value that
      cannot be read reports a format error; settings that fail the check
      are dropped. */
  function ImportStep(b: Build, v: View, file: File, loads: string -> Option<Value>, ipcSave: Value -> Result<Value>): (r: Step)
    ensures file.NoFile? ==> r == Step(v, None, None)
    ensures r.request.Some? <==> file.Text? && loads(file.text).Some? && Check(b, loads(file.text).value) == Ok(true)
    ensures r.request.Some? ==> r.request == loads(file.text)
  {
    var failure := Some(Notice("Failed to import settings. Please check the file format.", "error"));
    if file.NoFile? then Step(v, None, None)
    else match loads(file.text)
      case None => Step(v, None, failure)
      case Some(imported) =>
        match Check(b, imported)
        case Raised(_) => Step(v, None, failure)
        case Ok(false) => Step(v, None, None)
        case Ok(true) =>
          match ipcSave(imported)
          case Raised(_) => Step(v, Some(imported), failure)
          case Ok(s) =>
            if Unreadable(s) then Step(v.(settings := s), Some(imported), failure)
            else Step(Refreshed(v.(settings := s)), Some(imported), Some(Notice("Settings imported successfully!", "success")))
  }

  /** As written, an imported file whose port is not a number is sent to
      the main process; the corrected check drops it. */
  lemma ImportAsWrittenSendsNonNumericPort(v: View, text: string, loads: string -> Option<Value>, ipcSave: Value -> Result<Value>)
    requires loads(text) == Some(Obj(map["theme" := Str("dark"), "pythonPort" := Str("abc")]))
    ensures ImportStep(AsWritten, v, Text(text), loads, ipcSave).request == loads(text)
    ensures ImportStep(Corrected, v, Text(text), loads, ipcSave).request.None?
  {
    NonNumericPortPassesAsWritten();
  }

  /** `resetToDefaults()`: sends the defaults once confirmed. */
  function ResetStep(v: View, confirmed: bool, ipcSave: Value -> Result<Value>): (r: Step)
    ensures !confirmed ==> r == Step(v, None, None)
    ensures confirmed ==> r.request == Some(Defaults())
  {
    if !confirmed then Step(v, None, None)
    else match ipcSave(Defaults())
      case Raised(_) => Step(v, Some(Defaults()), Some(Notice("Failed to reset settings.", "error")))
      case Ok(s) =>
        if Unreadable(s) then Step(v.(settings := s), Some(Defaults()), Some(Notice("Failed to reset settings.", "error")))
        else Step(Refreshed(v.(settings := s)), Some(Defaults()), Some(Notice("Settings reset to defaults.", "success")))
  }

  /** `applyTheme(theme)` / `previewTheme(theme)`. */
  function WithTheme(v: View, theme: string): View
  {
    v.(dataTheme := theme, themeColor := ThemeColor(theme))
  }

  class SettingsManager {
    /** Whether the class follows settings.js as written or corrected. */
    const build: Build
    var currentSettings: Value
    var form: Form
    var dataTheme: string
    var themeColor: string

    function Snap(): View
      reads this
    {
      View(currentSettings, form, dataTheme, themeColor)
    }

    constructor(build: Build, form: Form, dataTheme: string, themeColor: string)
      ensures this.build == build
      ensures Snap() == View(Obj(map[]), form, dataTheme, themeColor)
    {
      this.build := build;
      currentSettings := Obj(map[]);
      this.form := form;
      this.dataTheme := dataTheme;
      this.themeColor := themeColor;
    }

    method ApplyTheme(theme: string)
      modifies this
      ensures Snap() == WithTheme(old(Snap()), theme)
    {
      dataTheme := theme;
      themeColor := ThemeColor(theme);
    }

    method UpdateUI()
      modifies this
      ensures Snap() == Refreshed(old(Snap()))
    {
      var theme := ThemeOf(currentSettings);
      if form.theme.Some? {
        form := form.(theme := Some(theme));
      }
      if form.voice.Some? {
        form := form.(voice := Some(Prop(currentSettings, "voiceEnabled") != Bool(false)));
      }
      if form.autoStart.Some? {
        form := form.(autoStart := Some(Prop(currentSettings, "autoStart") == Bool(true)));
      }
      if form.port.Some? {
        form := form.(port := Some(JsString(JsOr(Prop(currentSettings, "pythonPort"), Int(8000)))));
      }
      ApplyTheme(theme);
    }

    method LoadSettings(got: Result<Value>)
      modifies this
      ensures Snap() == LoadStep(old(Snap()), got)
    {
      if got.Ok? && !Unreadable(got.value) {
        currentSettings := got.value;
      } else {
        currentSettings := Defaults();
      }
      UpdateUI();
    }

    method Save(ipcSave: Value -> Result<Value>) returns (request: Option<Value>, notice: Option<Notice>)
      modifies this
      ensures Step(Snap(), request, notice) == SaveStep(build, old(Snap()), ipcSave)
    {
      var newSettings := FormData(form);
      if Check(build, newSettings) != Ok(true) {
        return None, None;
      }
      request := Some(newSettings);
      var reply := ipcSave(newSettings);
      if reply.Raised? {
        return request, Some(Notice("Failed to save settings. Please try again.", "error"));
      }
      currentSettings := reply.value;
      if Unreadable(currentSettings) {
        return request, Some(Notice("Failed to save settings. Please try again.", "error"));
      }
      UpdateUI();
      notice := Some(Notice("Settings saved successfully!", "success"));
    }

    method ToggleVoice(ipcSave: Value -> Result<Value>) returns (request: Option<Value>, notice: Option<Notice>)
      modifies this
      ensures Step(Snap(), request, notice) == ToggleStep(old(Snap()), ipcSave)
    {
      if Unreadable(currentSettings) {
        return None, None;
      }
      var on := !JsTruthy(Prop(currentSettings, "voiceEnabled"));
      var newSettings := Obj(Spread(currentSettings)["voiceEnabled" := Bool(on)]);
      request := Some(newSettings);
      var reply := ipcSave(newSettings);
      if reply.Raised? {
        return request, None;
      }
      currentSettings := reply.value;
      notice := Some(Notice(if on then "Voice features enabled" else "Voice features disabled", "normal"));
    }

    method ImportSettings(file: File, loads: string -> Option<Value>, ipcSave: Value -> Result<Value>)
      returns (request: Option<Value>, notice: Option<Notice>)
      modifies this
      ensures Step(Snap(), request, notice) == ImportStep(build, old(Snap()), file, loads, ipcSave)
    {
      var failure := Some(Notice("Failed to import settings. Please check the file format.", "error"));
      if file.NoFile? {
        return None, None;
      }
      var imported := loads(file.text);
      if imported.None? {
        return None, failure;
      }
      var valid := Check(build, imported.value);
      if valid.Raised? {
        return None, failure;
      }
      if !valid.value {
        return None, None;
      }
      request := imported;
      var reply := ipcSave(imported.value);
      if reply.Raised? {
        return request, failure;
      }
      currentSettings := reply.value;
      if Unreadable(currentSettings) {
        return request, failure;
      }
      UpdateUI();
      notice := Some(Notice("Settings imported successfully!", "success"));
    }

    method ResetToDefaults(confirmed: bool, ipcSave: Value -> Result<Value>) returns (request: Option<Value>, notice: Option<Notice>)
      modifies this
      ensures Step(Snap(), request, notice) == ResetStep(old(Snap()), confirmed, ipcSave)
    {
      if !confirmed {
        return None, None;
      }
      request := Some(Defaults());
      var reply := ipcSave(Defaults());
      if reply.Raised? {
        return request, Some(Notice("Failed to reset settings.", "error"));
      }
      currentSettings := reply.value;
      if Unreadable(currentSettings) {
        return request, Some(Notice("Failed to reset settings.", "error"));
      }
      UpdateUI();
      notice := Some(Notice("Settings reset to defaults.", "success"));
    }
  }
}
