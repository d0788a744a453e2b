/** `IntentParser` (intent_parser.py): turns the language model's reply into
    an intent {action, params, response}, trusting a structured reply whose
    action is known and otherwise matching keyword patterns on the reply
    text. Regular-expression search is an oracle: `search(p, t)` is the
    groups of the first match of pattern p in text t (Some), or None when
    nothing matches; a group that did not take part is None. A pattern
    searched case-insensitively is passed with a leading "(?i)". */
module IntentParser {
  import opened Common

  type Search = (string, string) -> Option<seq<Option<string>>>

  /** Python's match.group(k); a group the pattern lacks reads as None. */
  function Group(m: seq<Option<string>>, k: nat): (r: Option<string>)
    ensures 1 <= k <= |m| ==> r == m[k - 1]
  {
    if 1 <= k <= |m| then m[k - 1] else None
  }

  /** The keys of `keyword_patterns`, in declaration order. */
  const Actions: seq<string> := ["create_document", "find_files", "set_alarm", "open_app",
                                 "get_system_info", "read_document", "speak"]

  const Patterns: seq<seq<string>> := [
    [@"create.*(?:document|file|txt)|make.*(?:file|document)",
     @"write.*(?:file|document)|save.*(?:text|document)",
     @"new.*(?:document|file)|generate.*(?:file|document)",
     @"build.*file|compose.*document"],
    [@"find.*(?:file|document)|search.*(?:file|document)",
     @"locate.*(?:file|document)|show.*files",
     @"list.*files|display.*files|get.*files",
     @"look.*for.*files"],
    [@"remind.*me|set.*(?:alarm|reminder|timer)",
     @"alert.*me|wake.*me|notify.*me",
     @"create.*(?:reminder|alarm)|schedule.*reminder",
     @"in.*(?:\d+.*minutes?|hour)"],
    [@"open.*(?:app|application|program)",
     @"launch.*(?:app|application|program)",
     @"start.*(?:app|application|program)",
     @"run.*(?:app|application|program)"],
    [@"system.*(?:info|information|status)",
     @"computer.*(?:info|specs|status)",
     @"show.*(?:system|computer|specs)",
     @"memory.*usage|cpu.*usage|disk.*space",
     @"hardware.*info|performance.*info"],
    [@"read.*(?:file|document)|show.*(?:file|document)",
     @"open.*(?:file|document)|display.*(?:file|document)",
     @"view.*(?:file|document)|get.*content"],
    [@"say.*this|speak.*this|tell.*me",
     @"voice.*output|read.*aloud|pronounce"]]

  predicate IsAction(a: string) {
    a in Actions
  }

  /** Index of the first pattern from `from` on that matches `text`. */
  function FirstHit(search: Search, pats: seq<string>, text: string, from: nat): (r: Option<nat>)
    requires from <= |pats|
    ensures r.Some? ==> from <= r.value < |pats| && search(pats[r.value], text).Some?
    ensures r.Some? ==> forall j :: from <= j < r.value ==> search(pats[j], text).None?
    ensures r.None? ==> forall j :: from <= j < |pats| ==> search(pats[j], text).None?
    decreases |pats| - from
  {
    if from == |pats| then None
    else if search(pats[from], text).Some? then Some(from)
    else FirstHit(search, pats, text, from + 1)
  }

  /** Index of the first action from `from` on with some matching pattern. */
  function FirstAction(search: Search, text: string, from: nat): (r: Option<nat>)
    requires from <= |Patterns|
    ensures r.Some? ==> from <= r.value < |Patterns| && FirstHit(search, Patterns[r.value], text, 0).Some?
    ensures r.Some? ==> forall a :: from <= a < r.value ==> FirstHit(search, Patterns[a], text, 0).None?
    ensures r.None? ==> forall a :: from <= a < |Patterns| ==> FirstHit(search, Patterns[a], text, 0).None?
    decreases |Patterns| - from
  {
    if from == |Patterns| then None
    else if FirstHit(search, Patterns[from], text, 0).Some? then Some(from)
    else FirstAction(search, text, from + 1)
  }

  /** The groups of the first matching pattern, if any. */
  function FirstMatch(search: Search, pats: seq<string>, text: string): (r: Option<seq<Option<string>>>)
    ensures r.None? <==> FirstHit(search, pats, text, 0).None?
  {
    match FirstHit(search, pats, text, 0)
    case None => None
    case Some(j) => search(pats[j], text)
  }

  /** Each pattern with the inline `(?i)` flag in front, which is what
      passing `re.IGNORECASE` to `re.search` asks for. */
  function IgnoreCase(pats: seq<string>): (r: seq<string>)
    ensures |r| == |pats|
    ensures forall i :: 0 <= i < |r| ==> |r[i]| == |pats[i]| + 4 && r[i][..4] == "(?i)" && r[i][4..] == pats[i]
  {
    seq(|pats|, i requires 0 <= i < |pats| => "(?i)" + pats[i])
  }

  const FilenamePatterns: seq<string> := IgnoreCase([
    @"(?:called|named|file|document)\s+[""\']?([^""\'.\s]+(?:\.[a-zA-Z0-9]+)?)[""\']?",
    @"[""\']([^""\']+\.[a-zA-Z0-9]+)[""\']",
    @"(\w+\.[a-zA-Z0-9]+)",
    @"(?:create|make|write)\s+(?:a\s+)?(?:file\s+)?[""\']?([^""\'.\s]+)[""\']?"])

  const ContentPatterns: seq<string> := IgnoreCase([
    @"(?:with|containing|content|text)\s+[""\']([^""\']+)[""\']",
    @"(?:saying|reads?)\s+[""\']([^""\']+)[""\']",
    @"content:\s*[""\']([^""\']+)[""\']"])

  // ----------------------------------------------------------- _extract_params

  /** A matched file name: stripped, with ".txt" added when it has no dot. */
  function WithExtension(g: string): (r: string)
    ensures '.' in r
    ensures '.' in Strip(Python, g) ==> r == Strip(Python, g)
    ensures '.' !in Strip(Python, g) ==> r == Strip(Python, g) + ".txt"
  {
    var f := Strip(Python, g);
    if '.' in f then f else
      assert (f + ".txt")[|f|] == '.';
      f + ".txt"
  }

  /** The file name of a create_document intent; calling strip() on a group
      that did not take part raises. */
  function FileName(search: Search, text: string): (r: Result<string>)
    ensures FirstMatch(search, FilenamePatterns, text).None? ==> r == Ok("document.txt")
    ensures r.Ok? ==> '.' in r.value
  {
    match FirstMatch(search, FilenamePatterns, text)
    case None => Ok("document.txt")
    case Some(m) =>
      match Group(m, 1)
      case None => Raised("AttributeError")
      case Some(g) => Ok(WithExtension(g))
  }

  function DefaultContent(stamp: string): string {
    "Document created by JARVIS on " + stamp
  }

  /** The content of a create_document intent; an empty match falls back to
      the dated default text (`stamp` is the formatted clock). */
  function Content(search: Search, stamp: string, text: string): (r: Result<string>)
    ensures FirstMatch(search, ContentPatterns, text).None? ==> r == Ok(DefaultContent(stamp))
    ensures r.Ok? ==> r.value != ""
  {
    match FirstMatch(search, ContentPatterns, text)
    case None => Ok(DefaultContent(stamp))
    case Some(m) =>
      match Group(m, 1)
      case None => Raised("AttributeError")
      case Some(g) => Ok(if Strip(Python, g) == "" then DefaultContent(stamp) else Strip(Python, g))
  }

  const ExtensionPattern := @"\.(\w+)|(\w+)\s+files?"
  const FolderPattern := @"in\s+([^\s]+)"
  const MinutesPattern := @"(\d+)\s*(?:minute|min)"
  const MessagePattern := @"(?:to|about|for)\s+(.+)"
  const AppPattern := @"(?:open|launch|start)\s+([^\s]+)"
  const SpeakPattern := @"(?:say|speak)\s+[""\']?([^""\']+)[""\']?"

  function OptStr(g: Option<string>): Value {
    if g.Some? then Str(g.value) else Null
  }

  function FindFilesParams(search: Search, text: string): (r: map<string, Value>)
    ensures r.Keys == {"extension", "folder"}
    ensures search(ExtensionPattern, text).None? ==> r["extension"] == Str("txt")
    ensures search(FolderPattern, text).None? ==> r["folder"] == Str(".")
  {
    var ext := match search(ExtensionPattern, text)
      case None => Str("txt")
      case Some(m) => if Group(m, 1).Some? && Group(m, 1).value != "" then Str(Group(m, 1).value) else OptStr(Group(m, 2));
    var folder := match search(FolderPattern, text)
      case None => Str(".")
      case Some(m) => OptStr(Group(m, 1));
    map["extension" := ext, "folder" := folder]
  }

  /** Group g stripped, the default when the search fails; strip() on a
      group that did not take part raises. */
  function StrippedOr(search: Search, pattern: string, text: string, default: string): (r: Result<string>)
    ensures search(pattern, text).None? ==> r == Ok(default)
  {
    match search(pattern, text)
    case None => Ok(default)
    case Some(m) =>
      match Group(m, 1)
      case None => Raised("AttributeError")
      case Some(g) => Ok(Strip(Python, g))
  }

  function AlarmParams(search: Search, text: string): (r: Result<map<string, Value>>)
    ensures r.Ok? ==> r.value.Keys == {"minutes", "message"} && r.value["minutes"].Int?
    ensures search(MinutesPattern, text).None? && search(MessagePattern, text).None? ==>
      r == Ok(map["minutes" := Int(5), "message" := Str("Reminder")])
  {
    var minutes: Result<int> := match search(MinutesPattern, text)
      case None => Ok(5)
      case Some(m) =>
        (match Group(m, 1)
         case None => Raised("TypeError")
         case Some(g) => if PyIntOfString(g).Some? then Ok(PyIntOfString(g).value) else Raised("ValueError"));
    if minutes.Raised? then Raised(minutes.error)
    else
      match StrippedOr(search, MessagePattern, text, "Reminder")
      case Raised(e) => Raised(e)
      case Ok(msg) => Ok(map["minutes" := Int(minutes.value), "message" := Str(msg)])
  }

  function OneParam(key: string, v: Result<string>): Result<map<string, Value>> {
    match v
    case Raised(e) => Raised(e)
    case Ok(s) => Ok(map[key := Str(s)])
  }

  /** `_extract_params(text, action)` for every action except
      create_document, whose two pattern loops `ExtractParams` runs. */
  function CreateDocumentParams(search: Search, stamp: string, text: string): (r: Result<map<string, Value>>)
    ensures r.Ok? ==> r.value.Keys == {"name", "content"} && r.value["name"].Str? && '.' in r.value["name"].s
    ensures FirstMatch(search, FilenamePatterns, text).None? && FirstMatch(search, ContentPatterns, text).None? ==>
      r == Ok(map["name" := Str("document.txt"), "content" := Str(DefaultContent(stamp))])
  {
    match FileName(search, text)
    case Raised(e) => Raised(e)
    case Ok(name) =>
      match Content(search, stamp, text)
      case Raised(e) => Raised(e)
      case Ok(content) => Ok(map["name" := Str(name), "content" := Str(content)])
  }

  /** The parameters `_extract_params` builds for `action` from the lowered
      text; actions without a branch get {}. */
  function ParamsFor(search: Search, stamp: string, text: string, action: string): (r: Result<map<string, Value>>)
    ensures action == "create_document" ==> r == CreateDocumentParams(search, stamp, text)
    ensures action == "find_files" ==> r == Ok(FindFilesParams(search, text))
    ensures action == "set_alarm" ==> r == AlarmParams(search, text)
    ensures action == "open_app" ==> r == OneParam("app_name", StrippedOr(search, AppPattern, text, "calculator"))
    ensures action == "speak" ==> r == OneParam("text", StrippedOr(search, SpeakPattern, text, text))
    ensures action !in {"create_document", "find_files", "set_alarm", "open_app", "speak"} ==> r == Ok(map[])
  {
    if action == "create_document" then CreateDocumentParams(search, stamp, text)
    else if action == "find_files" then Ok(FindFilesParams(search, text))
    else if action == "set_alarm" then AlarmParams(search, text)
    else if action == "open_app" then OneParam("app_name", StrippedOr(search, AppPattern, text, "calculator"))
    else if action == "speak" then OneParam("text", StrippedOr(search, SpeakPattern, text, text))
    else Ok(map[])
  }

  /** `_extract_params`; create_document runs the two pattern loops below. */
  method ExtractParams(search: Search, stamp: string, text: string, action: string) returns (r: Result<map<string, Value>>)
    ensures r == ParamsFor(search, stamp, text, action)
  {
    if action != "create_document" {
      return ParamsFor(search, stamp, text, action);
    }
    var name := FindFileName(search, text);
    if name.Raised? {
      return Raised(name.error);
    }
    var body := FindContent(search, stamp, text);
    if body.Raised? {
      return Raised(body.error);
    }
    return Ok(map["name" := Str(name.value), "content" := Str(body.value)]);
  }

  /** create_document's loop over the filename patterns: the first match
      wins, and "document.txt" is the default. */
  method FindFileName(search: Search, text: string) returns (r: Result<string>)
    ensures r == FileName(search, text)
  {
    var filename: Option<string> := None;
    var i := 0;
    while i < |FilenamePatterns|
      invariant 0 <= i <= |FilenamePatterns|
      invariant filename.None? && FirstHit(search, FilenamePatterns, text, 0) == FirstHit(search, FilenamePatterns, text, i)
    {
      var m := search(FilenamePatterns[i], text);
      if m.Some? {
        var g := Group(m.value, 1);
        if g.None? {
          return Raised("AttributeError");
        }
        filename := Some(WithExtension(g.value));
        break;
      }
      i := i + 1;
    }
    return Ok(if filename.Some? then filename.value else "document.txt");
  }

  /** create_document's loop over the content patterns: the first match
      wins, stripped, and an empty or missing content gets the default. */
  method FindContent(search: Search, stamp: string, text: string) returns (r: Result<string>)
    ensures r == Content(search, stamp, text)
  {
    var content: Option<string> := None;
    var j := 0;
    while j < |ContentPatterns|
      invariant 0 <= j <= |ContentPatterns|
      invariant content.None? && FirstHit(search, ContentPatterns, text, 0) == FirstHit(search, ContentPatterns, text, j)
    {
      var m := search(ContentPatterns[j], text);
      if m.Some? {
        var g := Group(m.value, 1);
        if g.None? {
          return Raised("AttributeError");
        }
        content := Some(Strip(Python, g.value));
        break;
      }
      j := j + 1;
    }
    return Ok(if content.Some? && content.value != "" then content.value else DefaultContent(stamp));
  }

  // ----------------------------------------------------------- _keyword_match

  /** An intent: `action` is a Str or Null, `params` and `response` are
      whatever the producing branch put there. */
  datatype Intent = Intent(action: Value, params: Value, response: Value)

  /** `_keyword_match(text)`: the first action in declaration order with a
      pattern matching the lowered text, its parameters, and the original
      text as the response; with no match, action None and params {}. */
  function KeywordIntent(search: Search, stamp: string, text: string): (r: Result<Intent>)
    ensures r.Ok? ==> r.value.response == Str(text)
    ensures FirstAction(search, ToLower(text), 0).None? ==> r == Ok(Intent(Null, Obj(map[]), Str(text)))
    ensures FirstAction(search, ToLower(text), 0).Some? ==>
      var a := FirstAction(search, ToLower(text), 0).value;
      ParamsFor(search, stamp, ToLower(text), Actions[a]).Ok? ==>
        r == Ok(Intent(Str(Actions[a]), Obj(ParamsFor(search, stamp, ToLower(text), Actions[a]).value), Str(text)))
  {
    var low := ToLower(text);
    match FirstAction(search, low, 0)
    case None => Ok(Intent(Null, Obj(map[]), Str(text)))
    case Some(a) =>
      match ParamsFor(search, stamp, low, Actions[a])
      case Raised(e) => Raised(e)
      case Ok(p) => Ok(Intent(Str(Actions[a]), Obj(p), Str(text)))
  }

  /** No pattern of any action before index a matches. */
  predicate NoEarlierMatch(search: Search, low: string, a: nat)
    requires a <= |Actions|
  {
    forall b, j :: 0 <= b < a && 0 <= j < |Patterns[b]| ==> search(Patterns[b][j], low).None?
  }

  /** A reported action has a pattern matching the lowered text, and no
      action declared before it has one. */
  lemma KeywordIntentIsFirstMatch(search: Search, stamp: string, text: string)
    requires KeywordIntent(search, stamp, text).Ok? && KeywordIntent(search, stamp, text).value.action != Null
    ensures exists a, j ::
              && 0 <= a < |Actions| && 0 <= j < |Patterns[a]|
              && KeywordIntent(search, stamp, text).value.action == Str(Actions[a])
              && search(Patterns[a][j], ToLower(text)).Some?
              && NoEarlierMatch(search, ToLower(text), a)
  {
    var low := ToLower(text);
    var a := FirstAction(search, low, 0).value;
    var j := FirstHit(search, Patterns[a], low, 0).value;
    forall b, k | 0 <= b < a && 0 <= k < |Patterns[b]| ensures search(Patterns[b][k], low).None? {
      assert FirstHit(search, Patterns[b], low, 0).None?;
    }
    assert NoEarlierMatch(search, low, a);
  }

  method KeywordMatch(search: Search, stamp: string, text: string) returns (r: Result<Intent>)
    ensures r == KeywordIntent(search, stamp, text)
  {
    var low := ToLower(text);
    var a := 0;
    while a < |Actions|
      invariant 0 <= a <= |Actions|
      invariant FirstAction(search, low, 0) == FirstAction(search, low, a)
    {
      var pats := Patterns[a];
      var j := 0;
      while j < |pats|
        invariant 0 <= j <= |pats|
        invariant FirstHit(search, pats, low, 0) == FirstHit(search, pats, low, j)
      {
        if search(pats[j], low).Some? {
          var p := ExtractParams(search, stamp, low, Actions[a]);
          if p.Raised? {
            return Raised(p.error);
          }
          return Ok(Intent(Str(Actions[a]), Obj(p.value), Str(text)));
        }
        j := j + 1;
      }
      a := a + 1;
    }
    return Ok(Intent(Null, Obj(map[]), Str(text)));
  }

  // -------------------------------------------------------------- parse_intent

  /** What parse_intent receives: a dict, or another value with its str(). */
  datatype LlmReply = Dict(fields: map<string, Value>) | Other(text: string)

  /** The structured action is unhashable (a non-empty list or dict), so the
      table lookup raises TypeError. */
  predicate UnhashableAction(m: map<string, Value>) {
    "action" in m && PyTruthy(m["action"]) && (m["action"].List? || m["action"].Obj?)
  }

  predicate TrustedAction(m: map<string, Value>) {
    "action" in m && m["action"].Str? && IsAction(m["action"].s)
  }

  /** `parse_intent(llm_response)`. */
  function ParseIntent(search: Search, stamp: string, reply: LlmReply): (r: Result<Intent>)
    ensures reply.Dict? && TrustedAction(reply.fields) ==>
      r == Ok(Intent(reply.fields["action"], PyGet(reply.fields, "params", Obj(map[])), PyGet(reply.fields, "response", Str(""))))
    ensures reply.Dict? && !TrustedAction(reply.fields) && !UnhashableAction(reply.fields) ==>
      var text := PyGet(reply.fields, "response", Str(""));
      r == if text.Str? then KeywordIntent(search, stamp, text.s) else Raised("AttributeError")
    ensures reply.Dict? && UnhashableAction(reply.fields) ==> r.Raised?
    ensures reply.Other? ==> r == KeywordIntent(search, stamp, reply.text)
  {
    match reply
    case Other(s) => KeywordIntent(search, stamp, s)
    case Dict(m) =>
      if UnhashableAction(m) then Raised("TypeError")
      else if TrustedAction(m) then
        Ok(Intent(m["action"], PyGet(m, "params", Obj(map[])), PyGet(m, "response", Str(""))))
      else
        var text := PyGet(m, "response", Str(""));
        if text.Str? then KeywordIntent(search, stamp, text.s) else Raised("AttributeError")
  }

  /** An intent from parse_intent always names a known action or none. */
  lemma ParsedActionIsKnownOrNone(search: Search, stamp: string, reply: LlmReply)
    requires ParseIntent(search, stamp, reply).Ok?
    ensures var a := ParseIntent(search, stamp, reply).value.action;
            a == Null || (a.Str? && IsAction(a.s))
  {
    if !(reply.Dict? && TrustedAction(reply.fields)) {
      var text := if reply.Other? then reply.text else PyGet(reply.fields, "response", Str("")).s;
      var low := ToLower(text);
      match FirstAction(search, low, 0)
      case None =>
      case Some(a) => assert IsAction(Actions[a]);
    }
  }
}
