/** The post-processing in `LLMInterface.generate_response`
    (llm_interface.py): the model's text is trimmed, unwrapped from a code
    fence, parsed as JSON, completed with default keys, and replaced by a
    keyword-based reply when it is not a JSON object. The model call and
    `json.loads` are oracles: `generate(input)` is the generated text (None
    when the call raises, including when no model could be loaded) and
    `loads(text)` the parsed value (None on a decode error). */
module LlmInterface {
  import opened Common

  const Fence := "```"

  /** No occurrence of sep starts at any index below k. */
  predicate NoOccurrenceBefore(s: string, sep: string, k: nat) {
    forall i :: 0 <= i < k && i <= |s| ==> !StartsWith(s[i..], sep)
  }

  /** The text before the first occurrence of sep (all of s without one):
      `s.split(sep)[0]`. */
  function BeforeFirst(s: string, sep: string): (r: string)
    requires sep != ""
    ensures |r| <= |s| && r == s[..|r|]
    ensures NoOccurrenceBefore(s, sep, |r|)
    ensures |r| == |s| || StartsWith(s[|r|..], sep)
    decreases |s|
  {
    if StartsWith(s, sep) || s == [] then ""
    else
      var r := [s[0]] + BeforeFirst(s[1..], sep);
      assert forall i :: 1 <= i <= |s| ==> s[i..] == s[1..][i - 1..];
      r
  }

  /** `response.split('```')[1]` for text starting with a fence: what lies
      between the first fence and the next one (or the end). */
  function FenceBody(s: string): string
    requires StartsWith(s, Fence)
  {
    BeforeFirst(s[3..], Fence)
  }

  /** Trimming, fence removal and dropping a leading "json" marker. */
  function Clean(raw: string): (r: string)
    ensures |r| <= |raw|
    ensures Strip(Python, raw) == "" ==> r == ""
    ensures !StartsWith(Strip(Python, raw), Fence) && !StartsWith(Strip(Python, raw), "json") ==> r == Strip(Python, raw)
  {
    var t := Strip(Python, raw);
    var u := if StartsWith(t, Fence) then FenceBody(t) else t;
    if StartsWith(u, "json") then Strip(Python, u[4..]) else u
  }

  lemma StripNonBlankEnds(s: string)
    requires s != [] && !IsSpace(Python, s[0]) && !IsSpace(Python, s[|s| - 1])
    ensures Strip(Python, s) == s
  {
  }

  lemma {:induction false} BeforeFirstOfFree(b: string, tail: string)
    requires '`' !in b
    ensures BeforeFirst(b + Fence + tail, Fence) == b
    decreases |b|
  {
    var s := b + Fence + tail;
    if b == [] {
      assert s == Fence + tail;
      assert StartsWith(s, Fence);
    } else {
      assert s[0] == b[0] && b[0] != '`';
      assert !StartsWith(s, Fence);
      assert s[1..] == b[1..] + Fence + tail;
      BeforeFirstOfFree(b[1..], tail);
    }
  }

  /** A reply wrapped as ```json ... ``` (with anything after the closing
      fence) yields the trimmed body. */
  lemma CleanFencedJson(b: string, tail: string)
    requires '`' !in b
    requires tail == [] || !IsSpace(Python, tail[|tail| - 1])
    ensures Clean(Fence + "json" + b + Fence + tail) == Strip(Python, b)
  {
    var raw := Fence + "json" + b + Fence + tail;
    assert raw[0] == '`';
    assert raw[|raw| - 1] == if tail == [] then '`' else tail[|tail| - 1];
    StripNonBlankEnds(raw);
    assert StartsWith(raw, Fence);
    assert raw[3..] == ("json" + b) + Fence + tail;
    assert '`' !in "json" + b;
    BeforeFirstOfFree("json" + b, tail);
    assert FenceBody(raw) == "json" + b;
    assert ("json" + b)[4..] == b;
  }

  /** A reply that is already bare JSON text (no fence, no marker) is only
      trimmed. */
  lemma CleanBareIsStrip(raw: string)
    requires !StartsWith(Strip(Python, raw), Fence) && !StartsWith(Strip(Python, raw), "json")
    ensures Clean(raw) == Strip(Python, raw)
  {
  }

  // ------------------------------------------------------------------ replies

  function Reply(response: string, action: Value, params: map<string, Value>): map<string, Value> {
    map["response" := Str(response), "action" := action, "params" := Obj(params)]
  }

  const Apology := "I'm sorry, I encountered an error processing your request."

  /** A parsed object with "response", "action" and "params" filled in
      where missing. */
  function WithDefaults(m: map<string, Value>): (r: map<string, Value>)
    ensures "response" in r && "action" in r && "params" in r
    ensures forall k :: k in m ==> k in r && r[k] == m[k]
    ensures forall k :: k in r && k !in m ==> k in {"response", "action", "params"}
    ensures "response" !in m ==> r["response"] == Str("I understand your request.")
    ensures "action" !in m ==> r["action"] == Null
    ensures "params" !in m ==> r["params"] == Obj(map[])
  {
    var a := if "response" in m then m else m["response" := Str("I understand your request.")];
    var b := if "action" in a then a else a["action" := Null];
    if "params" in b then b else b["params" := Obj(map[])]
  }

  predicate AsksForFile(low: string) {
    Contains(low, "create") && (Contains(low, "file") || Contains(low, "document"))
  }

  predicate AsksForReminder(low: string) {
    Contains(low, "reminder") || Contains(low, "alarm")
  }

  predicate AsksForSearch(low: string) {
    Contains(low, "find") || Contains(low, "search")
  }

  predicate AsksForSystem(low: string) {
    Contains(low, "system") || Contains(low, "info")
  }

  /** The keyword reply for a lowered user input and the cleaned model text. */
  function Fallback(low: string, text: string): (r: map<string, Value>)
    ensures r.Keys == {"response", "action", "params"}
    ensures r["action"] == Str("create_document") <==> AsksForFile(low)
    ensures r["action"] == Str("set_alarm") <==> !AsksForFile(low) && AsksForReminder(low)
    ensures r["action"] == Str("find_files") <==> !AsksForFile(low) && !AsksForReminder(low) && AsksForSearch(low)
    ensures r["action"] == Str("get_system_info") <==>
      !AsksForFile(low) && !AsksForReminder(low) && !AsksForSearch(low) && AsksForSystem(low)
    ensures r["action"] == Null <==>
      !AsksForFile(low) && !AsksForReminder(low) && !AsksForSearch(low) && !AsksForSystem(low)
    ensures r["action"] == Null ==>
      r == Reply(if |text| < 200 then text else "I understand your request and will help you with that.", Null, map[])
  {
    if AsksForFile(low) then
      Reply("I'll create a document for you.", Str("create_document"),
            map["name" := Str("document.txt"), "content" := Str("Sample content")])
    else if AsksForReminder(low) then
      Reply("I'll set a reminder for you.", Str("set_alarm"), map["minutes" := Int(5), "message" := Str("Reminder")])
    else if AsksForSearch(low) then
      Reply("I'll search for files.", Str("find_files"), map["extension" := Str("txt"), "folder" := Str(".")])
    else if AsksForSystem(low) then
      Reply("Here's your system information.", Str("get_system_info"), map[])
    else
      Reply(if |text| < 200 then text else "I understand your request and will help you with that.", Null, map[])
  }

  /** `generate_response(user_input)`. The input reaches `.lower()` only on
      the fallback path; a non-text input raises there and gets the apology. */
  function GenerateResponse(generate: Value -> Option<string>, loads: string -> Option<Value>, userInput: Value): (r: map<string, Value>)
    ensures "response" in r && "action" in r && "params" in r
    ensures generate(userInput).None? ==> r == Reply(Apology, Null, map[])
    ensures generate(userInput).Some? ==>
      var text := Clean(generate(userInput).value);
      match loads(text)
      case Some(Obj(m)) => r == WithDefaults(m)
      case _ => r == if userInput.Str? then Fallback(ToLower(userInput.s), text) else Reply(Apology, Null, map[])
  {
    match generate(userInput)
    case None => Reply(Apology, Null, map[])
    case Some(raw) =>
      var text := Clean(raw);
      match loads(text)
      case Some(Obj(m)) => WithDefaults(m)
      case _ =>
        if userInput.Str? then Fallback(ToLower(userInput.s), text) else Reply(Apology, Null, map[])
  }

  /** A JSON value that is not an object is treated exactly like text that
      does not parse. */
  lemma NonObjectLikeParseError(generate: Value -> Option<string>, loads1: string -> Option<Value>,
                                loads2: string -> Option<Value>, userInput: Value)
    requires generate(userInput).Some?
    requires var text := Clean(generate(userInput).value);
             loads1(text).Some? && !loads1(text).value.Obj? && loads2(text).None?
    ensures GenerateResponse(generate, loads1, userInput) == GenerateResponse(generate, loads2, userInput)
  {
  }
}
