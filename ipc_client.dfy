/** utils/ipc.js: the renderer's `IPCManager`.
    - It classifies the backend status three ways.
    - It routes the backend messages that main forwards.
    - It turns a failed `send-message` call into a reply envelope.
    The DOM writes are reduced to the label and colour text they set. */
module IpcClient {
  import opened Common
  import Chat
  import IpcServer

  /** `updateBackendStatus(status)`: the status text. */
  function StatusLabel(status: Value): (r: string)
    ensures r == "Connected" <==> JsTruthy(Prop(status, "connected")) && JsTruthy(Prop(status, "pythonRunning"))
    ensures r == "Connecting..." <==> JsTruthy(Prop(status, "pythonRunning")) && !JsTruthy(Prop(status, "connected"))
    ensures r == "Disconnected" <==> !JsTruthy(Prop(status, "pythonRunning"))
  {
    var connected := JsTruthy(Prop(status, "connected"));
    var running := JsTruthy(Prop(status, "pythonRunning"));
    if connected && running then "Connected"
    else if running && !connected then "Connecting..."
    else "Disconnected"
  }

  /** `updateSystemInfo()`: the #backendStatus text and its colour. */
  function SystemInfo(status: Value): (r: (string, string))
    ensures r.1 == "var(--success-color)" <==> JsTruthy(Prop(status, "connected")) && JsTruthy(Prop(status, "pythonRunning"))
    ensures r.1 == "var(--warning-color)" <==> JsTruthy(Prop(status, "pythonRunning")) && !JsTruthy(Prop(status, "connected"))
    ensures r.1 == "var(--error-color)" <==> !JsTruthy(Prop(status, "pythonRunning"))
  {
    var connected := JsTruthy(Prop(status, "connected"));
    var running := JsTruthy(Prop(status, "pythonRunning"));
    if connected && running then ("Connected", "var(--success-color)")
    else if running && !connected then ("Connecting...", "var(--warning-color)")
    else ("Disconnected", "var(--error-color)")
  }

  /** The status indicator and the system panel always agree. */
  lemma SystemInfoAgrees(status: Value)
    ensures SystemInfo(status).0 == StatusLabel(status)
  {
    var info := SystemInfo(status);
    if info.1 == "var(--success-color)" {
      assert info.0 == "Connected";
    }
  }

  /** Where `handleBackendMessage` sends a message. */
  datatype Route = ToResponse(data: Value) | ToActionResult(data: Value) | Ignored

  /** `handleBackendMessage(message)`: reading `type` of null or undefined
      throws. */
  function RouteOf(message: Value): (r: Result<Route>)
    ensures r.Raised? <==> message.Null? || message.Undefined?
    ensures r.Ok? ==> (r.value.ToResponse? <==> Prop(message, "type") == Str("chat_response"))
    ensures r.Ok? ==> (r.value.ToActionResult? <==> Prop(message, "type") == Str("action_result"))
    ensures r.Ok? && !r.value.Ignored? ==> r.value.data == Prop(message, "data")
  {
    match JsRead(message, "type")
    case Raised(e) => Raised(e)
    case Ok(kind) =>
      if kind == Str("chat_response") then Ok(ToResponse(Prop(message, "data")))
      else if kind == Str("action_result") then Ok(ToActionResult(Prop(message, "data")))
      else Ok(Ignored)
  }

  const Sorry := "I'm sorry, I couldn't process your request right now."

  /** `sendMessage(message)`: the `send-message` result, or on failure an
      envelope carrying the error text. It never throws. */
  function SendResult(invoked: Result<Value>): (r: Value)
    ensures invoked.Ok? ==> r == invoked.value
    ensures invoked.Raised? ==>
              r == Obj(map["success" := Bool(false), "error" := Str(invoked.error), "response" := Str(Sorry)])
  {
    match invoked
    case Ok(v) => v
    case Raised(e) => Obj(map["success" := Bool(false), "error" := Str(e), "response" := Str(Sorry)])
  }

  /** A failed send shows the envelope's apology as an AI message in the chat
      and saves no conversation. */
  lemma FailedSendShowsSorry(build: Build, t: Chat.Transcript, e: string, now: string)
    requires t.shown
    ensures var o := Chat.ResponseStep(build, t, SendResult(Raised(e)), now);
            && !o.raised && o.t.saved == t.saved
            && o.t.messages[|o.t.messages| - 1] == Chat.Message(Str(Sorry), "ai", "normal", now)
  {
    var env := SendResult(Raised(e));
    assert Prop(env, "data") == Undefined && Prop(env, "response") == Str(Sorry);
  }

  /** Every chat reply the backend sends is routed to `handleResponse`
      with its data, and every action reply to `handleActionResult`. */
  lemma BackendRepliesRoute(b: IpcServer.Backend, frame: string, now: string, m: Value)
    requires IpcServer.WsStep(b, frame, now) == IpcServer.Reply(m)
    ensures RouteOf(m).Ok?
    ensures m.fields["type"] == Str("chat_response") ==> RouteOf(m) == Ok(ToResponse(m.fields["data"]))
    ensures m.fields["type"] != Str("chat_response") ==> RouteOf(m) == Ok(ToActionResult(m.fields["data"]))
  {
  }

  /** A chat reply forwarded by main reaches `handleResponse` as its bare
      data, which has no `data` of its own: the intent's response is shown
      and no conversation is saved. Every chat reply the session sends is
      such a frame (IpcServer.RepliesAreBuilt). */
  lemma ForwardedChatReplyShowsText(build: Build, t: Chat.Transcript, p: IpcServer.Processed, now: string, when: string)
    requires t.shown && JsTruthy(p.intent.response)
    ensures var o := Chat.ResponseStep(build, t, IpcServer.ChatReply(p, now).fields["data"], when);
            && o.t.saved == t.saved && |o.t.messages| > 0
            && o.t.messages[|o.t.messages| - 1] == Chat.Message(p.intent.response, "ai", "normal", when)
  {
    var data := IpcServer.ChatReply(p, now).fields["data"];
    assert "data" !in data.fields && Prop(data, "response") == p.intent.response;
    BareReplyShowsText(build, t, data, when);
  }

  /** A reply object without `data` whose response is truthy is shown as
      that response. */
  lemma BareReplyShowsText(build: Build, t: Chat.Transcript, data: Value, when: string)
    requires t.shown && data.Obj? && "data" !in data.fields && JsTruthy(Prop(data, "response"))
    ensures var o := Chat.ResponseStep(build, t, data, when);
            && o.t.saved == t.saved && |o.t.messages| > 0
            && o.t.messages[|o.t.messages| - 1] == Chat.Message(Prop(data, "response"), "ai", "normal", when)
  {
  }

  /** An action reply's data nests the router's envelope under `result`, so
      `handleActionResult` finds no `success` and shows the failure
      default. Every action reply the backend sends is such a frame
      (IpcServer.RepliesAreBuilt). */
  lemma ActionReplyShowsFailureDefault(brk: string, action: Value, result: map<string, Value>, now: string)
    ensures Chat.ActionNote(IpcServer.ActionReply(action, result, now).fields["data"], brk)
            == Ok(Some(Chat.Note(Str(Chat.FailureDefault), "error")))
  {
    NestedResultShowsFailureDefault(brk, IpcServer.ActionReply(action, result, now).fields["data"]);
  }

  /** Data holding only the action, the time and a nested result has no
      `success` of its own: the failure default is shown. */
  lemma NestedResultShowsFailureDefault(brk: string, data: Value)
    requires data.Obj? && data.fields.Keys == {"action", "result", "timestamp"}
    ensures Chat.ActionNote(data, brk) == Ok(Some(Chat.Note(Str(Chat.FailureDefault), "error")))
  {
    assert "success" !in data.fields && "message" !in data.fields;
  }
}
