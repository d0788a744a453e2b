/** renderer-working.js: `WorkingJarvisRenderer`, the renderer paired with
    main-working.js.
    - It keeps its own message history, `isProcessing` and `backendConnected`.
    - It sends only while the last status said connected.
    - It toggles a light/dark theme.
    Its addMessage, saveToHistory and action-result formatting match those
    of the chat component, except that its content preview starts with a
    real paragraph break. */
module RendererWorking {
  import opened Common
  import Chat
  import IpcClient
  import Supervisor
  import MainApp

  const Offline := "I'm not connected to the AI backend yet. The backend is starting up, please wait a moment and try again."

  /** The renderer's fields:
      - the chat state: transcript, `isProcessing`, #messageInput;
      - `backendConnected` as last received;
      - the document's data-theme attribute;
      - the stored 'jarvis-theme'. */
  datatype Renderer = Renderer(chat: Chat.ChatState, backendConnected: Value, theme: Option<string>, storedTheme: Option<string>)

  // ------------------------------------------------------------ status

  /** `updateBackendStatus(status)`: the status text. Here `connected`
      alone decides "Connected", whatever `pythonRunning` says. */
  function StatusLabel(status: Value): (r: string)
    ensures r == "Connected" <==> JsTruthy(Prop(status, "connected"))
    ensures r == "Starting..." <==> !JsTruthy(Prop(status, "connected")) && JsTruthy(Prop(status, "pythonRunning"))
    ensures r == "Disconnected" <==> !JsTruthy(Prop(status, "connected")) && !JsTruthy(Prop(status, "pythonRunning"))
  {
    if JsTruthy(Prop(status, "connected")) then "Connected"
    else if JsTruthy(Prop(status, "pythonRunning")) then "Starting..."
    else "Disconnected"
  }

  /** `this.backendConnected = status.connected`: throws on a null or
      undefined status, before any label is written. */
  function StatusStep(st: Renderer, status: Value): (r: Result<Renderer>)
    ensures r.Raised? <==> status.Null? || status.Undefined?
    ensures r.Ok? ==> r.value == st.(backendConnected := Prop(status, "connected"))
  {
    match JsRead(status, "connected")
    case Raised(e) => Raised(e)
    case Ok(c) => Ok(st.(backendConnected := c))
  }

  /** The two renderers differ exactly on a status that is connected with no
      running process: the chat component's manager says "Disconnected" and
      this renderer "Connected". Otherwise they agree, up to "Connecting..."
      being called "Starting...". */
  lemma StatusVariantsDiffer(status: Value)
    ensures IpcClient.StatusLabel(status) == "Connected" ==> StatusLabel(status) == "Connected"
    ensures IpcClient.StatusLabel(status) == "Connecting..." <==> StatusLabel(status) == "Starting..."
    ensures IpcClient.StatusLabel(status) != "Connected" && StatusLabel(status) == "Connected"
            <==> JsTruthy(Prop(status, "connected")) && !JsTruthy(Prop(status, "pythonRunning"))
  {
  }

  /** What a `get-backend-status` result looks like in the renderer. The
      port, when present, is not read and is left out. */
  function StatusValue(s: Supervisor.Status): (r: Value)
    ensures Prop(r, "connected") == s.connected && Prop(r, "pythonRunning") == s.pythonRunning
  {
    Obj(map["connected" := s.connected, "pythonRunning" := s.pythonRunning])
  }

  /** Under main.js without the backend script, the socket is dialled with
      no process. Once it opens, a status query makes the chat component's
      manager report "Disconnected" while this renderer reports
      "Connected". */
  lemma OpenWithoutProcessShownDifferently(store: map<string, Value>)
    ensures var o := Supervisor.ReadyStep(MainApp.MainRules, Supervisor.Initial(MainApp.MainRules, store), false);
            && |o.sockets| == 1
            && var p := Supervisor.OpenStep(MainApp.MainRules, o, 0);
               var s := StatusValue(Supervisor.StatusOf(MainApp.MainRules, p));
               && IpcClient.StatusLabel(s) == "Disconnected" && StatusLabel(s) == "Connected"
  {
    var st := Supervisor.Initial(MainApp.MainRules, store);
    var o := Supervisor.ReadyStep(MainApp.MainRules, st, false);
    assert o == Supervisor.ConnectStep(MainApp.MainRules, st);
    var p := Supervisor.OpenStep(MainApp.MainRules, o, 0);
    assert p.ws == Some(0) && p.sockets[0].state == Supervisor.Open && p.process.None?;
    var s := StatusValue(Supervisor.StatusOf(MainApp.MainRules, p));
    assert Prop(s, "connected") == Bool(true) && Prop(s, "pythonRunning") == Null;
  }

  /** `testConnection()`: `status.connected` as received, false when the
      query fails or the status is null. */
  function Probe(status: Result<Value>): (r: Value)
    ensures status.Raised? ==> r == Bool(false)
    ensures status.Ok? && (status.value.Null? || status.value.Undefined?) ==> r == Bool(false)
    ensures status.Ok? && !(status.value.Null? || status.value.Undefined?) ==> r == Prop(status.value, "connected")
  {
    match status
    case Raised(_) => Bool(false)
    case Ok(s) => match JsRead(s, "connected") { case Raised(_) => Bool(false) case Ok(c) => c }
  }

  // ------------------------------------------------------------ theme

  /** `toggleTheme()`: 'dark' becomes 'light', anything else (including no
      attribute) becomes 'dark'. */
  function Toggled(current: Option<string>): (r: string)
    ensures r == "light" <==> current == Some("dark")
    ensures r == "dark" <==> current != Some("dark")
  {
    if current == Some("dark") then "light" else "dark"
  }

  /** Two toggles restore the start theme exactly when it is 'dark' or
      'light'. */
  lemma ToggleTwiceRestores(t: string)
    ensures Toggled(Some(Toggled(Some(t)))) == t <==> t == "dark" || t == "light"
  {
    if t != "dark" && t != "light" {
      assert Toggled(Some(t)) == "dark";
      assert Toggled(Some("dark")) == "light";
    }
  }

  /** The theme applied at start-up: the stored one, or 'light' when none
      or empty. */
  function SavedTheme(stored: Option<string>): (r: string)
    ensures stored.Some? && stored.value != "" ==> r == stored.value
    ensures stored.None? || stored == Some("") ==> r == "light"
  {
    if stored.Some? && stored.value != "" then stored.value else "light"
  }

  /** `setTheme(theme)`: the attribute and the store both hold it. */
  function SetTheme(st: Renderer, theme: string): (r: Renderer)
    ensures r.theme == Some(theme) && r.storedTheme == Some(theme)
    ensures r.chat == st.chat && r.backendConnected == st.backendConnected
  {
    st.(theme := Some(theme), storedTheme := Some(theme))
  }

  /** Toggling is self-inverse on the two real themes, attribute and store
      alike. */
  lemma ToggleStepTwice(st: Renderer)
    requires st.theme == Some("dark") || st.theme == Some("light")
    ensures var once := SetTheme(st, Toggled(st.theme));
            var twice := SetTheme(once, Toggled(once.theme));
            twice == st.(storedTheme := st.theme)
  {
  }

  // ------------------------------------------------------------ sending

  /** The state once `sendMessage` reaches its `await`, and the message it
      sends to the backend (None when it returned early or was offline). */
  datatype Sent = Sent(st: Renderer, message: Option<Value>)

  /** The input after a send: cleared only when no text was passed. */
  function InputAfter(st: Renderer, text: Value): (r: Option<string>)
    ensures r.None? <==> st.chat.input.None?
    ensures r.Some? && !JsTruthy(text) ==> r == Some("")
    ensures JsTruthy(text) ==> r == st.chat.input
  {
    if st.chat.input.Some? && !JsTruthy(text) then Some("") else st.chat.input
  }

  /** `sendMessage(text)` up to its `await`. When `backendConnected` is falsy
      the whole call completes here, with the warning added and
      `isProcessing` cleared. */
  function Begin(st: Renderer, text: Value, now: string): (r: Sent)
    ensures r.message.Some? <==> !st.chat.processing && JsTruthy(Chat.Outgoing(st.chat, text)) && JsTruthy(st.backendConnected)
    ensures st.chat.processing || !JsTruthy(Chat.Outgoing(st.chat, text)) ==> r == Sent(st, None)
    ensures r.message.Some? ==> r.message.value == Chat.Outgoing(st.chat, text) && r.st.chat.processing
    ensures !st.chat.processing && JsTruthy(Chat.Outgoing(st.chat, text)) ==>
              var t1 := Chat.Add(st.chat.t, Chat.Outgoing(st.chat, text), "user", "normal", now);
              && r.st.chat.input == InputAfter(st, text)
              && (JsTruthy(st.backendConnected) ==> r.st.chat.t == t1)
              && (!JsTruthy(st.backendConnected) ==>
                    r.st.chat.t == Chat.Add(t1, Str(Offline), "ai", "warning", now) && !r.st.chat.processing)
    ensures r.st.backendConnected == st.backendConnected && r.st.theme == st.theme && r.st.storedTheme == st.storedTheme
  {
    if st.chat.processing then Sent(st, None)
    else
      var message := Chat.Outgoing(st.chat, text);
      if !JsTruthy(message) then Sent(st, None)
      else
        var t1 := Chat.Add(st.chat.t, message, "user", "normal", now);
        if JsTruthy(st.backendConnected) then
          Sent(st.(chat := Chat.ChatState(t1, true, InputAfter(st, text))), Some(message))
        else
          Sent(st.(chat := Chat.ChatState(Chat.Add(t1, Str(Offline), "ai", "warning", now), false, InputAfter(st, text))), None)
  }

  /** When the backend is not connected, a send makes no IPC call and shows
      the warning; the next send is not blocked. */
  lemma OfflineSendWarns(st: Renderer, text: Value, now: string)
    requires st.chat.t.shown && !st.chat.processing && JsTruthy(Chat.Outgoing(st.chat, text))
    requires !JsTruthy(st.backendConnected)
    ensures var b := Begin(st, text, now);
            && b.message.None? && !b.st.chat.processing
            && b.st.chat.t.messages[|b.st.chat.t.messages| - 1] == Chat.Message(Str(Offline), "ai", "warning", now)
  {
  }

  /** While a message is in flight every further send is ignored. */
  lemma SendWhileProcessingIgnored(st: Renderer, text: Value, now: string, text2: Value, now2: string)
    requires Begin(st, text, now).message.Some?
    ensures var b := Begin(st, text, now);
            Begin(b.st, text2, now2) == Sent(b.st, None)
  {
  }

  /** `handleChatResponse(response)` of build b: the response text, the
      action result, then the save. It is the chat component's handling of a
      reply's data, with the content preview's real paragraph break; the
      userMessage it saves is computed the same way as there. */
  function ChatResponseStep(b: Build, t: Chat.Transcript, response: Value, now: string): (r: Chat.Outcome)
    ensures r.raised <==> JsTruthy(Prop(response, "action_result")) && Chat.ActionNote(Prop(response, "action_result"), Chat.Break).Raised?
    ensures !r.raised ==> |r.t.saved| == Chat.Min(|t.saved| + 1, Chat.ConversationCap) && r.t.saved[1..] == t.saved[..|r.t.saved| - 1]
    ensures !r.raised ==> Prop(r.t.saved[0], "aiResponse") == Prop(response, "response")
                          && Prop(r.t.saved[0], "actionResult") == Prop(response, "action_result")
    ensures !r.raised ==> r.t.messages == Chat.Shown(Chat.Break, t, response, now).messages
  {
    Chat.RecordReply(b, Chat.Break, t, response, now)
  }

  /** `sendMessage` after its `await`. The reply is unwrapped as
      `response.data || response`. An exception (a failed call, a null
      reply, a throwing action result) adds the apology as an error, and
      `isProcessing` is cleared either way. */
  function Finish(b: Build, st: Renderer, reply: Result<Value>, now: string): (r: Renderer)
    ensures !r.chat.processing && r.chat.input == st.chat.input
    ensures r.backendConnected == st.backendConnected && r.theme == st.theme && r.storedTheme == st.storedTheme
    ensures reply.Raised? || reply.value.Null? || reply.value.Undefined? ==>
              r.chat.t == Chat.Add(st.chat.t, Str(Chat.Apology), "ai", "error", now)
    ensures reply.Ok? && !(reply.value.Null? || reply.value.Undefined?) ==>
              var o := ChatResponseStep(b, st.chat.t, JsOr(Prop(reply.value, "data"), reply.value), now);
              r.chat.t == if o.raised then Chat.Add(o.t, Str(Chat.Apology), "ai", "error", now) else o.t
  {
    var t :=
      match reply
      case Raised(_) => Chat.Add(st.chat.t, Str(Chat.Apology), "ai", "error", now)
      case Ok(v) =>
        match JsRead(v, "data")
        case Raised(_) => Chat.Add(st.chat.t, Str(Chat.Apology), "ai", "error", now)
        case Ok(d) =>
          var o := ChatResponseStep(b, st.chat.t, JsOr(d, v), now);
          if o.raised then Chat.Add(o.t, Str(Chat.Apology), "ai", "error", now) else o.t;
    st.(chat := st.chat.(t := t, processing := false))
  }

  /** In the corrected build a reply carrying data saves a conversation
      whose userMessage is the message just sent. */
  lemma SavedConversationNamesSender(st: Renderer, text: Value, now: string, reply: Value, now2: string)
    requires st.chat.t.shown && Begin(st, text, now).message.Some?
    requires JsTruthy(Prop(reply, "data"))
    requires !ChatResponseStep(Corrected, Begin(st, text, now).st.chat.t, Prop(reply, "data"), now2).raised
    ensures var b := Begin(st, text, now);
            var f := Finish(Corrected, b.st, Ok(reply), now2);
            Prop(f.chat.t.saved[0], "userMessage") == b.message.value
  {
    var b := Begin(st, text, now);
    var u := b.message.value;
    assert reply.Obj?;
    assert Chat.UserAt(b.st.chat.t.messages, 0, u);
    Chat.RecordReplyNamesUser(Chat.Break, b.st.chat.t, Prop(reply, "data"), now2, u);
  }

  /** As written, a reply whose data has a response and an action result
      that adds a message saves the AI response as the userMessage, as in
      the chat component. */
  lemma SavedConversationNamesReply(st: Renderer, text: Value, now: string, reply: Value, now2: string)
    requires st.chat.t.shown && Begin(st, text, now).message.Some?
    requires var data := Prop(reply, "data");
             JsTruthy(data) && JsTruthy(Prop(data, "response")) && JsTruthy(Prop(data, "action_result"))
             && Chat.ActionNote(Prop(data, "action_result"), Chat.Break).Ok?
    ensures var f := Finish(AsWritten, Begin(st, text, now).st, Ok(reply), now2);
            Prop(f.chat.t.saved[0], "userMessage") == Prop(Prop(reply, "data"), "response")
  {
    assert reply.Obj?;
    Chat.RecordReplyAsWrittenNamesResponse(Chat.Break, Begin(st, text, now).st.chat.t, Prop(reply, "data"), now2);
  }

  /** `handleQuickAction(action)`: the prompt is sent when the key is known. */
  lemma QuickActionSends(st: Renderer, action: string, now: string)
    requires !st.chat.processing && JsTruthy(st.backendConnected)
    ensures var p := Chat.QuickPrompt(action);
            p.Some? ==> Begin(st, Str(p.value), now).message == Some(Str(p.value))
  {
  }

  // ------------------------------------------------------------ the class

  class WorkingJarvisRenderer {
    /** Whether the class follows renderer-working.js as written or corrected. */
    const build: Build
    const hasChatElement: bool
    var messageHistory: seq<Chat.Message>
    var isProcessing: bool
    var input: Option<string>
    var savedHistory: seq<Value>
    var backendConnected: Value
    var theme: Option<string>
    var storedTheme: Option<string>

    function Snap(): Renderer
      reads this
    {
      Renderer(Chat.ChatState(Chat.Transcript(hasChatElement, messageHistory, savedHistory), isProcessing, input),
               backendConnected, theme, storedTheme)
    }

    /** The constructor's fields, then the saved theme applied when the
        #themeToggle element exists. */
    constructor(build: Build, hasChatElement: bool, hasThemeToggle: bool, input: Option<string>,
                savedHistory: seq<Value>, storedTheme: Option<string>)
      ensures this.build == build
      ensures var initial := Renderer(Chat.ChatState(Chat.Transcript(hasChatElement, [], savedHistory), false, input),
                                    Bool(false), None, storedTheme);
              Snap() == if hasThemeToggle then SetTheme(initial, SavedTheme(storedTheme)) else initial
    {
      this.build := build;
      this.hasChatElement := hasChatElement;
      this.messageHistory := [];
      this.isProcessing := false;
      this.input := input;
      this.savedHistory := savedHistory;
      this.backendConnected := Bool(false);
      this.theme := None;
      this.storedTheme := storedTheme;
      if hasThemeToggle {
        var saved := if storedTheme.Some? && storedTheme.value != "" then storedTheme.value else "light";
        this.theme := Some(saved);
        this.storedTheme := Some(saved);
      }
    }

    method SetThemeTo(t: string)
      modifies this
      ensures Snap() == SetTheme(old(Snap()), t)
    {
      theme := Some(t);
      storedTheme := Some(t);
    }

    method ToggleTheme()
      modifies this
      ensures Snap() == SetTheme(old(Snap()), Toggled(old(theme)))
    {
      var next := if theme == Some("dark") then "light" else "dark";
      SetThemeTo(next);
    }

    /** Returns the label shown, None when reading the status threw. */
    method UpdateBackendStatus(status: Value) returns (text: Option<string>)
      modifies this
      ensures StatusStep(old(Snap()), status).Raised? ==> Snap() == old(Snap()) && text.None?
      ensures StatusStep(old(Snap()), status).Ok? ==> Snap() == StatusStep(old(Snap()), status).value
                                                      && text == Some(StatusLabel(status))
    {
      if status.Null? || status.Undefined? {
        return None;
      }
      backendConnected := Prop(status, "connected");
      if JsTruthy(Prop(status, "connected")) {
        text := Some("Connected");
      } else if JsTruthy(Prop(status, "pythonRunning")) {
        text := Some("Starting...");
      } else {
        text := Some("Disconnected");
      }
    }

    method AddMessage(text: Value, sender: string, kind: string, now: string)
      modifies this
      ensures Snap() == old(Snap()).(chat := old(Snap()).chat.(t := Chat.Add(old(Snap()).chat.t, text, sender, kind, now)))
    {
      if !hasChatElement {
        return;
      }
      messageHistory := messageHistory + [Chat.Message(text, sender, kind, now)];
      if |messageHistory| > Chat.MessageCap {
        messageHistory := messageHistory[|messageHistory| - Chat.MessageCap..];
      }
    }

    method SaveToHistory(conversation: Value)
      modifies this
      ensures Snap() == old(Snap()).(chat := old(Snap()).chat.(t := Chat.Save(old(Snap()).chat.t, conversation)))
    {
      var history := [conversation] + savedHistory;
      savedHistory := history[..Chat.Min(|history|, Chat.ConversationCap)];
    }

    method HandleActionResult(result: Value, now: string) returns (raised: bool)
      modifies this
      ensures Snap() == old(Snap()).(chat := old(Snap()).chat.(t := Chat.ShowActionResult(old(Snap()).chat.t, result, Chat.Break, now).t))
      ensures raised == Chat.ShowActionResult(old(Snap()).chat.t, result, Chat.Break, now).raised
    {
      var note := Chat.ActionNote(result, Chat.Break);
      if note.Raised? {
        return true;
      }
      raised := false;
      if note.value.Some? {
        AddMessage(note.value.value.text, "ai", note.value.value.kind, now);
      }
    }

    method HandleChatResponse(response: Value, now: string) returns (raised: bool)
      modifies this
      ensures Snap() == old(Snap()).(chat := old(Snap()).chat.(t := ChatResponseStep(build, old(Snap()).chat.t, response, now).t))
      ensures raised == ChatResponseStep(build, old(Snap()).chat.t, response, now).raised
    {
      raised := false;
      if JsTruthy(Prop(response, "response")) {
        AddMessage(Prop(response, "response"), "ai", "normal", now);
      }
      if JsTruthy(Prop(response, "action_result")) {
        raised := HandleActionResult(Prop(response, "action_result"), now);
        if raised {
          return;
        }
      }
      SaveToHistory(Chat.Conversation(now, Chat.SavedUser(build, messageHistory), response));
    }

    /** `sendMessage(text)` up to its `await`; returns what it sends. */
    method SendMessage(text: Value, now: string) returns (message: Option<Value>)
      modifies this
      ensures Snap() == Begin(old(Snap()), text, now).st
      ensures message == Begin(old(Snap()), text, now).message
    {
      if isProcessing {
        return None;
      }
      var m := Chat.Outgoing(Snap().chat, text);
      if !JsTruthy(m) {
        return None;
      }
      isProcessing := true;
      if input.Some? && !JsTruthy(text) {
        input := Some("");
      }
      AddMessage(m, "user", "normal", now);
      message := None;
      if JsTruthy(backendConnected) {
        message := Some(m);
      } else {
        AddMessage(Str(Offline), "ai", "warning", now);
        isProcessing := false;
      }
    }

    /** `sendMessage` once the IPC call settles with `reply`. */
    method ResumeSend(reply: Result<Value>, now: string)
      modifies this
      ensures Snap() == Finish(build, old(Snap()), reply, now)
    {
      var raised := true;
      if reply.Ok? && !(reply.value.Null? || reply.value.Undefined?) {
        raised := HandleChatResponse(JsOr(Prop(reply.value, "data"), reply.value), now);
      }
      if raised {
        AddMessage(Str(Chat.Apology), "ai", "error", now);
      }
      isProcessing := false;
    }

    method HandleQuickAction(action: string, now: string) returns (message: Option<Value>)
      modifies this
      ensures Chat.QuickPrompt(action).None? ==> Snap() == old(Snap()) && message.None?
      ensures Chat.QuickPrompt(action).Some? ==>
                Snap() == Begin(old(Snap()), Str(Chat.QuickPrompt(action).value), now).st
                && message == Begin(old(Snap()), Str(Chat.QuickPrompt(action).value), now).message
    {
      var prompt := Chat.QuickPrompt(action);
      message := None;
      if prompt.Some? {
        message := SendMessage(Str(prompt.value), now);
      }
    }
  }
}
