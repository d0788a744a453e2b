/** `TaskRouter` (task_router.py): dispatches an action name to one of
    thirteen handlers with keyword parameters and wraps failures in
    {success: False, message} envelopes. The handlers themselves are an
    oracle: `call(name, params)` is what the awaited handler returns or
    raises. */
module TaskRouter {
  import opened Common

  /** What `await handler(**params)` does. */
  datatype HandlerOutcome =
    | Returned(result: map<string, Value>)
    | RaisedTypeError(text: string)
    | RaisedOther(text: string)

  type Handlers = (string, map<string, Value>) -> HandlerOutcome

  /** The keys of `action_handlers`, in declaration order. */
  const HandlerNames: seq<string> := [
    "create_document", "find_files", "read_document", "delete_document",
    "set_alarm", "list_alarms", "cancel_alarm",
    "open_app", "get_system_info", "run_command",
    "speak", "listen", "get_voice_info"]

  /** The table has thirteen distinct names. */
  lemma HandlerNamesDistinct()
    ensures Distinct(HandlerNames)
    ensures |Elements(HandlerNames)| == 13
  {
    DistinctCardinality(HandlerNames);
  }

  function Failure(message: string): map<string, Value> {
    map["success" := Bool(false), "message" := Str(message)]
  }

  /** str(v) in an f-string; `repr` gives the text of lists and dicts. */
  function PyStr(v: Value, repr: Value -> string): string {
    match v
    case Str(s) => s
    case Int(i) => IntToString(i)
    case Bool(b) => if b then "True" else "False"
    case Null => "None"
    case _ => repr(v)
  }

  function AvailableList(): Value {
    List(seq(|HandlerNames|, i requires 0 <= i < |HandlerNames| => Str(HandlerNames[i])))
  }

  function UnknownAction(shown: string): map<string, Value> {
    Failure("Unknown action: " + shown)["available_actions" := AvailableList()]
  }

  function InvalidParameters(shown: string, e: string): map<string, Value> {
    Failure("Invalid parameters for action '" + shown + "': " + e)
  }

  /** `execute_action(action, params)`. An empty action calls nothing; a list
      or dict action cannot be looked up (TypeError); a name outside the
      table is unknown; a params value that is not a dict fails the `**`
      unpacking (TypeError); otherwise the handler's result is passed
      through and its exceptions are wrapped. */
  function ExecuteAction(call: Handlers, repr: Value -> string, action: Value, params: Value): (r: map<string, Value>)
    ensures !PyTruthy(action) ==> r == Failure("No action specified")
    ensures PyTruthy(action) && !(action.List? || action.Obj?) && !(action.Str? && action.s in HandlerNames) ==>
      r == UnknownAction(PyStr(action, repr))
    ensures action.Str? && action.s in HandlerNames && params.Obj? && call(action.s, params.fields).Returned? ==>
      r == call(action.s, params.fields).result
    ensures action.Str? && action.s in HandlerNames && params.Obj? && call(action.s, params.fields).RaisedTypeError? ==>
      r == InvalidParameters(action.s, call(action.s, params.fields).text)
    ensures action.Str? && action.s in HandlerNames && params.Obj? && call(action.s, params.fields).RaisedOther? ==>
      r == Failure("Failed to execute action '" + action.s + "': " + call(action.s, params.fields).text)
    ensures action.Str? && action.s in HandlerNames && !params.Obj? ==>
      r == InvalidParameters(action.s, "argument after ** must be a mapping")
  {
    if !PyTruthy(action) then Failure("No action specified")
    else if action.List? then InvalidParameters(PyStr(action, repr), "unhashable type: 'list'")
    else if action.Obj? then InvalidParameters(PyStr(action, repr), "unhashable type: 'dict'")
    else if !(action.Str? && action.s in HandlerNames) then UnknownAction(PyStr(action, repr))
    else if !params.Obj? then InvalidParameters(action.s, "argument after ** must be a mapping")
    else
      match call(action.s, params.fields)
      case Returned(result) => result
      case RaisedTypeError(e) => InvalidParameters(action.s, e)
      case RaisedOther(e) => Failure("Failed to execute action '" + action.s + "': " + e)
  }

  /** Every envelope the router builds itself reports failure; only a
      handler's own result can report success. */
  lemma RouterEnvelopesFail(call: Handlers, repr: Value -> string, action: Value, params: Value)
    requires !(action.Str? && action.s in HandlerNames && params.Obj? && call(action.s, params.fields).Returned?)
    ensures var r := ExecuteAction(call, repr, action, params);
            "success" in r && r["success"] == Bool(false) && "message" in r
  {
  }

  /** An unknown action's `available_actions` lists exactly the handler names. */
  lemma UnknownListsHandlers(shown: string)
    ensures var v := UnknownAction(shown)["available_actions"];
            v.List? && |v.items| == 13
            && forall i :: 0 <= i < |v.items| ==> v.items[i] == Str(HandlerNames[i])
  {
  }

  /** `get_available_actions()`. */
  function Descriptions(): (d: map<string, Value>)
    ensures d.Keys == Elements(HandlerNames)
    ensures |d.Keys| == 13
  {
    var d := map[
      "create_document" := Str("Create a new document with specified name and content"),
      "find_files" := Str("Find files with specific extension in a folder"),
      "read_document" := Str("Read the content of a document"),
      "delete_document" := Str("Delete a document (requires confirmation)"),
      "set_alarm" := Str("Set an alarm for X minutes with a message"),
      "list_alarms" := Str("List all active alarms"),
      "cancel_alarm" := Str("Cancel an active alarm by ID"),
      "open_app" := Str("Open an application by name"),
      "get_system_info" := Str("Get comprehensive system information"),
      "run_command" := Str("Run a system command (safe mode by default)"),
      "speak" := Str("Convert text to speech"),
      "listen" := Str("Listen for speech input and convert to text"),
      "get_voice_info" := Str("Get information about available voices and audio devices")];
    HandlerNamesDistinct();
    d
  }

  function AvailableActions(): (r: map<string, Value>)
    ensures "success" in r && "actions" in r && "count" in r
    ensures r["success"] == Bool(true)
    ensures r["actions"].Obj? && r["actions"].fields.Keys == Elements(HandlerNames)
    ensures r["count"] == Int(13)
  {
    map["success" := Bool(true), "actions" := Obj(Descriptions()), "count" := Int(|Descriptions().Keys|)]
  }
}
