# J.A.R.V.I.S — a verified model of the assistant's core logic

J.A.R.V.I.S is a desktop assistant. An Electron application (main process
plus renderer) supervises a Python backend (FastAPI with a WebSocket
endpoint). The backend asks a local language model for a JSON reply, turns
that reply into an intent, and dispatches the intent to task handlers
(alarms, system commands, files, voice).

This project models, in Dafny, the parts of that system that are logic
rather than plumbing:

- **Backend tasks.** The alarm registry (`Alarms`), the settings store
  (`BackendSettings`), the intent parser (`IntentParser`), the action router
  (`TaskRouter`), the safe-mode command whitelist and the application lookup
  (`SystemTasks`), and the clean-up of the model's raw output
  (`LlmInterface`).
- **Backend server.** The WebSocket connection list, the per-frame reply
  dispatch and the `/chat` envelope (`IpcServer`).
- **Connection supervisor.** The Electron main process, in all three
  variants: `main.js`, `main-working.js` and `main-fixed.js`. `Supervisor`
  holds one event-driven state machine. The variants differ in a few rules,
  and `MainApp`, `MainWorking` and `MainFixed` each fix those rules and
  prove what is particular to their variant.
- **Renderer logic.** The chat panel (`Chat`), the settings panel
  (`SettingsView`), the IPC helper (`IpcClient`) and the self-contained
  renderer (`RendererWorking`).

`Common` holds a JSON-like dynamic `Value` shared by Python and JavaScript,
the `Option` and `Result` types, and string helpers. These include
Python/JavaScript truthiness, `strip`/`trim` and `split()` with each
runtime's own set of blank characters, `lower`, `String()`, string lengths
counted in UTF-16 units as JavaScript counts them, `Number()` and
`parseInt` (decimal, hexadecimal, exponents, `Infinity`), and Python's
`int()` (with `_` between digit groups).

Where the source has a defect (see "## Findings"), the classes take a
`Build`: `AsWritten` runs the code as written and `Corrected` the evident
intent, and lemmas state the behaviour of each.

How the source's state is modelled:

- **Objects whose fields change.** The alarm registry, both settings
  managers, the connection manager, the supervisor, the chat manager and
  the renderer are classes with those fields. Each has a `Snap()` function
  that reads its fields into a datatype. Each method is specified by a pure
  step function on that datatype (`ensures Snap() == Step(old(Snap()), …)`),
  and the lemmas state what the source promises about the step functions.
- **What the model cannot see.** Regular-expression search, `json.loads` /
  `JSON.parse`, the language model, the task handlers, `subprocess` and
  file reads become function parameters (oracles).
- **Time.** Clocks are integer parameters. Timers and sockets are abstract
  events.

## Model

| member | source | states |
|---|---|---|
| Alarms.AddAlarm | python-backend/tasks/alarm_tasks.py:33-66 | minutes ≤ 0 fails with "Alarm time must be positive" and leaves the list unchanged; otherwise exactly one active alarm with id = old length + 1 and the given message is appended, and that id is returned in a success message that contains the reminder text |
| Alarms.FirstCancellable | python-backend/tasks/alarm_tasks.py:140-141 | the index found is the first entry whose id matches and which is active (a missing "active" key counts as active); with no index, no entry qualifies |
| Alarms.CancelById | python-backend/tasks/alarm_tasks.py:137-155 | succeeds iff some entry is cancellable under that id; on failure the list is unchanged and the message is "Active alarm with ID … not found"; the length is kept |
| Alarms.CancelChangesOnlyFirstMatch | python-backend/tasks/alarm_tasks.py:140-150 | a successful cancel deactivates and stamps the first cancellable entry and leaves every other entry as it was |
| Alarms.SequentialIdsAreUnique | python-backend/tasks/alarm_tasks.py:43 | ids handed out as position + 1 are pairwise distinct |
| Alarms.SecondCancelFails | python-backend/tasks/alarm_tasks.py:141-155 | with unique ids, cancelling the same id a second time fails |
| Alarms.Upcoming | python-backend/tasks/alarm_tasks.py:109-122 | the listed entries are never more than the alarms |
| Alarms.UpcomingSound | python-backend/tasks/alarm_tasks.py:109-122 | every listed entry is an active alarm of the list with positive remaining time, reported with that remaining time |
| Alarms.UpcomingComplete | python-backend/tasks/alarm_tasks.py:109-122 | every active alarm with positive remaining time is listed |
| Alarms.FirstWithId | python-backend/tasks/alarm_tasks.py:88-91 | the index found is the first entry with that id; with no index, none has it |
| Alarms.FireAlarm | python-backend/tasks/alarm_tasks.py:75-101 | an alarm still marked active reports its trigger and the first entry with its id becomes inactive and stamped triggered; otherwise nothing changes and nothing is reported |
| Alarms.FireMarksItself | python-backend/tasks/alarm_tasks.py:85-93 | with unique ids, the alarm that fires is itself marked inactive and triggered |
| Alarms.CancelledAlarmDoesNotFire | python-backend/tasks/alarm_tasks.py:85-93 | an alarm cancelled before its task wakes does not fire and is not marked triggered |
| Alarms.AddAlarmKeepsIdsSequential | python-backend/tasks/alarm_tasks.py:43-54 | `set_alarm` keeps the i-th entry's id equal to i + 1 |
| Alarms.CancelKeepsIdsSequential | python-backend/tasks/alarm_tasks.py:140-150 | cancelling keeps ids sequential |
| Alarms.FireKeepsIdsSequential | python-backend/tasks/alarm_tasks.py:85-93 | firing keeps ids sequential |
| Alarms.AddAllFromEmpty | python-backend/tasks/alarm_tasks.py:43-54 | n successful `set_alarm` calls from a sequential (e.g. empty) list add n entries and the ids stay 1..n in list order |
| Alarms.AlarmTasks.constructor | python-backend/tasks/alarm_tasks.py:15-23 | the registry starts with the alarms loaded from its store and no pending tasks |
| Alarms.AlarmTasks.SetAlarm | python-backend/tasks/alarm_tasks.py:33-66 | the list and the reply are those of `AddAlarm`; a successful call schedules a task for the new alarm |
| Alarms.AlarmTasks.CancelAlarm | python-backend/tasks/alarm_tasks.py:137-155 | the loop leaves the list and the reply of `CancelById`; tasks are untouched |
| Alarms.AlarmTasks.ListAlarms | python-backend/tasks/alarm_tasks.py:106-128 | reports success, exactly `Upcoming` of the list, and "Found n active alarms" |
| Alarms.AlarmTasks.Wake | python-backend/tasks/alarm_tasks.py:75-101 | the woken task is removed and the list and the trigger are those of `FireAlarm` |
| BackendSettings.Defaults | python-backend/settings_manager.py:10-18 | the defaults have seven keys |
| BackendSettings.LoadedSettings | python-backend/settings_manager.py:21-39 | every default key is present; a parsed object's values override the defaults and its extra keys are kept; a missing, unreadable or non-object file yields the defaults |
| BackendSettings.SaveStep | python-backend/settings_manager.py:41-57 | a failed write changes nothing and reports False; an absent or empty argument writes the current settings and keeps them; a non-empty argument is written and becomes the settings |
| BackendSettings.FrontendBool | python-backend/settings_manager.py:91-92 | a text value is true iff its lower-case form is "true"; a boolean is itself |
| BackendSettings.PyInt | python-backend/settings_manager.py:93-94 | integers convert to themselves, digit strings to their value, and null, lists and objects raise; a string is read as int() reads it: surrounding Python blanks, a sign, digit groups joined by single underscores |
| Common.PyIntOfGroups | python-backend/settings_manager.py:93-94 | int() reads "8_000" as 8000 |
| BackendSettings.ApplyKeepsUnmappedKeys | python-backend/settings_manager.py:76-98 | the mapping loop never touches a key outside the six mapped backend keys |
| BackendSettings.ApplyIgnoresOtherKeys | python-backend/settings_manager.py:86-88 | entries of the frontend object under names outside the mapping make no difference |
| BackendSettings.ApplyStoresConverted | python-backend/settings_manager.py:86-97 | when the loop completes, each mapped key present in the frontend object holds its converted value |
| BackendSettings.PyEqSymmetric | python-backend/settings_manager.py:96 | the `!=` comparison the loop uses is symmetric |
| BackendSettings.ApplyNotUpdatedIsUnchanged | python-backend/settings_manager.py:96-102 | when no mapped value differs the settings are exactly as before, so nothing is saved |
| BackendSettings.UpdatedStaysUpdated | python-backend/settings_manager.py:85-98 | once a value has changed the `updated` flag stays set |
| BackendSettings.MappingFacts | python-backend/settings_manager.py:76-83 | the mapping has six distinct backend keys, which do not include "log_level" |
| BackendSettings.KnownKeysOnly | python-backend/settings_manager.py:156-159 | exactly the imported entries under a default key are kept, with their values |
| BackendSettings.ImportedSection | python-backend/settings_manager.py:148-153 | a section is found iff the file parsed to an object with a "settings" key |
| BackendSettings.SettingsManager.constructor | python-backend/settings_manager.py:8-39 | the settings are `LoadedSettings` of the file; a missing file is created with the defaults |
| BackendSettings.SettingsManager.SaveSettings | python-backend/settings_manager.py:41-57 | the new state and the result are those of `SaveStep` |
| BackendSettings.SettingsManager.Get | python-backend/settings_manager.py:59-61 | a present key gives its value, an absent one the supplied default |
| BackendSettings.SettingsManager.Set | python-backend/settings_manager.py:63-70 | the key is set in memory and saved; a later `Get` of it returns the value |
| BackendSettings.SettingsManager.UpdateFromFrontend | python-backend/settings_manager.py:72-106 | a failed conversion returns False; otherwise the settings are those of the mapping loop, saved only when some value changed, and True is returned without a write when none did |
| BackendSettings.SettingsManager.ImportSettings | python-backend/settings_manager.py:146-171 | with no "settings" section the result is False and nothing changes; otherwise only known keys are merged over the settings and saved |
| BackendSettings.SettingsManager.ResetToDefaults | python-backend/settings_manager.py:173-180 | the settings equal the defaults, and are saved |
| IntentParser.Group | python-backend/intent_parser.py:104 | `match.group(k)` is the k-th captured group |
| IntentParser.FirstHit | python-backend/intent_parser.py:73-74 | the index found is the first pattern that matches; with none, no pattern matches |
| IntentParser.FirstAction | python-backend/intent_parser.py:72-74 | the index found is the first action, in declaration order, with a matching pattern; with none, no action has one |
| IntentParser.FirstMatch | python-backend/intent_parser.py:101-103 | there are groups iff some pattern matches |
| IntentParser.IgnoreCase | python-backend/intent_parser.py:102 | each pattern, in order, is searched case-insensitively: it is the same pattern behind the `(?i)` flag |
| IntentParser.WithExtension | python-backend/intent_parser.py:104-107 | a matched name is stripped and gets ".txt" exactly when it has no dot, so it always has one |
| IntentParser.FileName | python-backend/intent_parser.py:100-110 | no matching pattern gives "document.txt"; every name has a dot |
| IntentParser.Content | python-backend/intent_parser.py:119-126 | no matching pattern gives the timestamped default; the content is never empty |
| IntentParser.FindFilesParams | python-backend/intent_parser.py:128-138 | the keys are exactly extension and folder, defaulting to "txt" and "." |
| IntentParser.StrippedOr | python-backend/intent_parser.py:157-169 | no match gives the default |
| IntentParser.AlarmParams | python-backend/intent_parser.py:140-153 | the keys are exactly minutes (an integer) and message, defaulting to 5 and "Reminder" |
| IntentParser.CreateDocumentParams | python-backend/intent_parser.py:91-126 | the keys are exactly name (with a dot) and content; with no matches they are "document.txt" and the timestamped default |
| IntentParser.ParamsFor | python-backend/intent_parser.py:87-171 | each of the five actions gets its own parameters; open_app defaults to "calculator", speak to the whole text, and every other action to {} |
| IntentParser.ExtractParams | python-backend/intent_parser.py:87-171 | the parameters are those `ParamsFor` assigns to the action: name and content for create_document, then one branch per other action, {} for the rest |
| IntentParser.FindFileName | python-backend/intent_parser.py:100-110 | the loop computes `FileName`: the first filename pattern that matches gives the name, with .txt added when it has no extension; a match without its group raises; no match gives document.txt |
| IntentParser.FindContent | python-backend/intent_parser.py:119-126 | the loop computes `Content`: the first content pattern that matches gives the stripped content; an empty one or no match gives the dated default |
| IntentParser.KeywordIntent | python-backend/intent_parser.py:68-85 | the response is always the original text; with no match the action is None and the params {}; otherwise the first matching action with its params |
| IntentParser.KeywordIntentIsFirstMatch | python-backend/intent_parser.py:72-79 | a reported action has a pattern matching the lower-cased text, and no earlier action has one |
| IntentParser.KeywordMatch | python-backend/intent_parser.py:68-85 | the nested loops with early return compute `KeywordIntent` |
| IntentParser.ParseIntent | python-backend/intent_parser.py:52-66 | a dict whose action is a known action is returned with its params (default {}) and response (default ""); any other dict falls back to keyword matching on its response; an unhashable action raises; a non-dict is matched on its text |
| IntentParser.ParsedActionIsKnownOrNone | python-backend/intent_parser.py:56-85 | a parsed intent names a known action or none |
| TaskRouter.HandlerNamesDistinct | python-backend/task_router.py:16-33 | the handler table has thirteen distinct names |
| TaskRouter.ExecuteAction | python-backend/task_router.py:35-70 | a falsy action gives "No action specified"; an unknown one "Unknown action: …" with the handler list; a known one the handler's result unchanged; a TypeError "Invalid parameters for action …" and any other exception "Failed to execute action …" |
| TaskRouter.RouterEnvelopesFail | python-backend/task_router.py:38-69 | every envelope the router builds itself has success False |
| TaskRouter.UnknownListsHandlers | python-backend/task_router.py:44-50 | an unknown action's `available_actions` is exactly the handler names |
| TaskRouter.Descriptions | python-backend/task_router.py:74-91 | there is one description per handler, thirteen in all |
| TaskRouter.AvailableActions | python-backend/task_router.py:72-97 | success True, the actions keyed exactly by the handler names, and count 13 |
| SystemTasks.Word | python-backend/tasks/system_tasks.py:154 | the result is the longest blank-free prefix of the text |
| SystemTasks.SplitWords | python-backend/tasks/system_tasks.py:154 | every word of `split()` is non-empty and free of the blanks str.isspace() accepts, the no-break space and the other Unicode spaces included |
| SystemTasks.SplitWordsEmptyIffBlank | python-backend/tasks/system_tasks.py:154 | `split()` is empty iff the text is all blanks |
| SystemTasks.RunCommand | python-backend/tasks/system_tasks.py:144-190 | the command runs iff safe mode is off or its first word is whitelisted; a rejection reports "not allowed" with the whitelist; success iff it was admitted and completed |
| SystemTasks.CommandBase | python-backend/tasks/system_tasks.py:154 | the base is "" exactly for a blank command, and otherwise a non-empty word free of blanks |
| SystemTasks.Allowed | python-backend/tasks/system_tasks.py:153-156 | without safe mode every command is allowed; in safe mode a blank command never is |
| SystemTasks.BlankCommandRejected | python-backend/tasks/system_tasks.py:154-156 | a blank command is rejected in safe mode |
| SystemTasks.BaseIsLeadingWord | python-backend/tasks/system_tasks.py:154 | the base of a command is its leading word |
| SystemTasks.WordOfPrefix | python-backend/tasks/system_tasks.py:154 | the leading word of a word followed by a blank is that word |
| SystemTasks.UpperCaseRejected | python-backend/tasks/system_tasks.py:148-156 | membership is case-sensitive: "LS" is rejected |
| SystemTasks.ListingAdmitted | python-backend/tasks/system_tasks.py:148-156 | "ls -la" is admitted |
| SystemTasks.NoBreakSpaceSeparates | python-backend/tasks/system_tasks.py:148-156 | "ls", a no-break space, "-la" is admitted: split() breaks at Unicode blanks too |
| Common.NoBreakSpaceIsBlank | python-backend/tasks/system_tasks.py:154 | the no-break space is a blank to Python's strip() and split() and to JavaScript's trim() |
| SystemTasks.ResolveApp | python-backend/tasks/system_tasks.py:46-51 | the platform's entry for the lower-cased name when it has one, otherwise the raw name |
| SystemTasks.UnknownPlatformUsesName | python-backend/tasks/system_tasks.py:46-51 | an unknown platform always uses the raw name |
| SystemTasks.OpenApp | python-backend/tasks/system_tasks.py:12-71 | a launch that does not raise gives success with "Successfully opened …" and the app name; one that raises gives failure with "Failed to open …: " and the error |
| SystemTasks.LaunchFor | python-backend/tasks/system_tasks.py:53-57 | Windows launches the resolved command through the shell; every other platform launches the blank-free words of it, none for a blank command |
| LlmInterface.BeforeFirst | python-backend/llm_interface.py:90 | the result is the prefix before the first separator (all of the text without one) |
| LlmInterface.StripNonBlankEnds | python-backend/llm_interface.py:86 | stripping text without blank ends changes nothing |
| LlmInterface.BeforeFirstOfFree | python-backend/llm_interface.py:90 | text without a backtick followed by a fence is cut just before the fence |
| LlmInterface.CleanFencedJson | python-backend/llm_interface.py:86-92 | a reply fenced as json is reduced to its stripped body |
| LlmInterface.Clean | python-backend/llm_interface.py:86-92 | the cleaned text is never longer than the reply; a blank reply cleans to ""; a reply without fence or "json" marker is only stripped |
| LlmInterface.CleanBareIsStrip | python-backend/llm_interface.py:86-92 | a reply without fence or marker is only stripped |
| LlmInterface.WithDefaults | python-backend/llm_interface.py:102-111 | "response", "action" and "params" are present, defaulting to "I understand your request.", None and {}; nothing else is added or changed |
| LlmInterface.Fallback | python-backend/llm_interface.py:117-146 | the action follows the precedence create+(file or document), then reminder or alarm, then find or search, then system or info, then none; with none the response is the text when shorter than 200 characters, otherwise a fixed sentence |
| LlmInterface.GenerateResponse | python-backend/llm_interface.py:77-154 | the reply always has the three keys; a failed model call gives the apology; a parsed object gets the defaults; anything else goes to the fallback |
| LlmInterface.NonObjectLikeParseError | python-backend/llm_interface.py:99-113 | non-object JSON gives the same reply as text that does not parse |
| IpcServer.RemoveFirst | python-backend/ipc_server.py:51-53 | removing a connection that is absent changes nothing; otherwise one occurrence is dropped |
| IpcServer.Without | python-backend/ipc_server.py:58-63 | the surviving connections are never more than the connections |
| IpcServer.WithoutMembers | python-backend/ipc_server.py:58-63 | a connection survives iff it was there and its send did not fail |
| IpcServer.BroadcastStep | python-backend/ipc_server.py:58-63 | one step of the loop as written: a failed send removes the connection and the loop index still advances |
| IpcServer.BroadcastFrom | python-backend/ipc_server.py:58-63 | the loop as written attempts at most the connections from the index on, never more connections remain than there were, and no connection outside the list is attempted or kept |
| IpcServer.BroadcastIntended | python-backend/ipc_server.py:58-63 | the intended broadcast attempts every connection in order and keeps no more than there were |
| IpcServer.BroadcastSkipsAfterFailure | python-backend/ipc_server.py:58-63 | with connections [1, 2] and 1 failing, 2 is never sent to |
| IpcServer.BroadcastIntendedCorrect | python-backend/ipc_server.py:58-63 | the corrected broadcast sends to every connection and keeps exactly those whose send succeeded |
| IpcServer.ConnectionManager.constructor | python-backend/ipc_server.py:44-45 | the list starts empty |
| IpcServer.ConnectionManager.Connect | python-backend/ipc_server.py:47-49 | the socket is appended |
| IpcServer.ConnectionManager.Disconnect | python-backend/ipc_server.py:51-53 | the socket is removed if present; otherwise nothing changes |
| IpcServer.ConnectionManager.BroadcastAsWritten | python-backend/ipc_server.py:58-63 | the loop as written yields `BroadcastFrom` |
| IpcServer.ConnectionManager.Broadcast | python-backend/ipc_server.py:58-63 | the loop yields `BroadcastIntended` |
| IpcServer.Process | python-backend/ipc_server.py:198-209 | the router runs only when the parsed action is truthy; otherwise the action result is None |
| IpcServer.WsStep | python-backend/ipc_server.py:188-239 | an unparseable or non-object frame ends the session; a reply holds exactly "type" and "data", and its type is "chat_response" iff the frame's type is "chat"; a frame whose type is neither "chat" nor "action" gets no reply |
| IpcServer.ChatReply | python-backend/ipc_server.py:211-219 | a chat reply holds exactly "type" and "data", its type is "chat_response", and its data holds exactly response, action_executed, action_result and timestamp |
| IpcServer.ActionReply | python-backend/ipc_server.py:228-235 | an action reply holds exactly "type" and "data", its type is "action_result", and its data holds exactly action, result and timestamp, with the router's envelope as the result |
| IpcServer.ChatReplyHasNoId | python-backend/ipc_server.py:211-219 | a chat reply the session sends has no "id", and its data has exactly the keys response, action_executed, action_result and timestamp |
| IpcServer.RepliesAreBuilt | python-backend/ipc_server.py:198-237 | every chat_response the session sends is `ChatReply` of some processed message, and every other reply is `ActionReply` of some action and router envelope |
| IpcServer.ActionReplyNestsResult | python-backend/ipc_server.py:223-237 | an action reply the session sends has no "id", its data has exactly the keys action, result and timestamp, and the result is an object |
| IpcServer.WebSocketSession | python-backend/ipc_server.py:181-246 | the socket is connected, the replies sent are `SessionReplies` of the frames, and the socket is removed when the session ends |
| IpcServer.SessionReplies | python-backend/ipc_server.py:188-246 | a session sends at most one reply per frame, and each reply holds exactly "type" and "data" |
| IpcServer.ChatResponse | python-backend/ipc_server.py:101-145 | success iff the pipeline did not raise; a failure carries the fixed apology and the error; success carries the intent's response |
| IpcServer.ChatEndpoint | python-backend/ipc_server.py:101-145 | the response is `ChatResponse`; only a success is broadcast, by the loop as written (BroadcastFrom) or by the corrected broadcast, as the build says |
| Supervisor.StatusOf | electron-app/src/main.js:243-248 | `connected` is truthy iff the current socket exists and is OPEN; `pythonRunning` is truthy iff the process exists and is not killed; a port is reported exactly where the entry point reports one, and it is the current port |
| Supervisor.Outcome | electron-app/src/main.js:373-383 | a handler that fires always settles its request: unreadable messages reject, others resolve |
| Supervisor.Initial | electron-app/src/main.js:10-25 | the state before any event is well formed and no request hangs |
| Supervisor.ConnectStep | electron-app/src/main.js:306-355 | dialling keeps the state well formed and leaves requests and timers alone |
| Supervisor.Off | electron-app/src/main.js:377-391 | `ws.off` removes exactly request r's handler from the current socket |
| Supervisor.Unregister | electron-app/src/main-working.js:309-315 | before settling, the handler leaves the current socket, and every timer but its own timeout survives |
| Supervisor.SettleRequest | electron-app/src/main.js:378-392 | settling keeps every request and the outcome of every request already settled |
| Supervisor.Handle | electron-app/src/main.js:373-384 | a handler that fires settles its own request with the message's outcome and leaves the current socket; nothing else changes; no timer is added, and where settling clears the timeout that timer is gone |
| Supervisor.Deliver | electron-app/src/main.js:373-386 | running the registered handlers keeps the state well formed, keeps every request and adds no handler or timer |
| Supervisor.MessageStep | electron-app/src/main.js:320-386 | a message keeps the state well formed, keeps every request, and leaves no pending request without its timer |
| Supervisor.SendStep | electron-app/src/main.js:357-395 | each call adds exactly one request and keeps every earlier one; no pending request is left without its 30-second timer |
| Supervisor.StartAndConnect | electron-app/src/main.js:251-304 | start-up keeps the state well formed and the requests unchanged |
| Supervisor.ReadyStep | electron-app/src/main.js:423-427 | the ready event keeps the state well formed and the requests unchanged |
| Supervisor.RunJob | electron-app/src/main.js:341-393 | a timer's callback keeps every request and every settled outcome, and leaves no pending request without its timer, given that only the request it times out may lack one |
| Supervisor.ExpireStep | electron-app/src/main.js:389-393 | the timeout keeps every request, leaves the timers alone and, once it settles its request, leaves no pending request without its timer |
| Supervisor.WarmupStep | electron-app/src/main-working.js:201-213 | the end of the start-up wait keeps every request and leaves no pending request without its timer |
| Supervisor.FireStep | electron-app/src/main.js:341-393 | a timer firing keeps every request and every settled outcome, and leaves no pending request without its timer |
| Supervisor.OpenStep | electron-app/src/main.js:310-318 | 'open' changes no request and no timer |
| Supervisor.CloseStep | electron-app/src/main.js:331-346 | 'close' changes no request and leaves no pending request without its timer |
| Supervisor.ErrorStep | electron-app/src/main.js:348-350 | 'error' changes no request |
| Supervisor.QuitStep | electron-app/src/main.js:43-45 | 'before-quit' changes no request and no timer |
| Supervisor.SaveStep | electron-app/src/main.js:230-236 | the settings and the store gain the new keys with their new values; every other key keeps its value |
| Supervisor.ToggleStep | electron-app/src/main.js:397-404 | `voiceEnabled` becomes the negation of its truthiness, and every other setting is kept |
| Supervisor.DeliverOutcome | electron-app/src/main.js:373-386 | one message settles exactly the requests whose handlers are registered and fire, each with the message's outcome; every other promise is unchanged |
| Supervisor.DeliverUnregisters | electron-app/src/main.js:377-381 | a handler that fires is gone from the current socket |
| Supervisor.MessageSettles | electron-app/src/main.js:320-386 | a message settles a request iff its handler is registered on that socket and fires, and then removes the handler from the current socket |
| Supervisor.BackendChatReplySettlesEveryWaiter | electron-app/src/main.js:376 | the backend's chat reply has no id, so it resolves every request waiting on the socket, whichever message each sent |
| Supervisor.BackendActionReplySettlesNothing | electron-app/src/main.js:376 | the backend's action reply settles no waiting request |
| Supervisor.SendRejectsWhenNotOpen | electron-app/src/main.js:359-362 | with no socket or one that is not OPEN the call rejects with 'WebSocket not connected', sends nothing, registers nothing and starts no timer |
| Supervisor.SendRegisters | electron-app/src/main.js:364-393 | on an open socket the envelope {id, type 'chat', message, timestamp} is sent, the handler is registered, and a 30000 ms timer starts |
| Supervisor.SendThenReply | electron-app/src/main.js:373-387 | a send followed by a 'chat_response' resolves the request with that reply and unregisters its handler |
| Supervisor.TimeoutStep | electron-app/src/main.js:389-393 | the timeout rejects with 'Request timeout' unless already settled, settles nothing else, and removes the handler only where the entry point does so |
| Supervisor.SendThenTimeout | electron-app/src/main.js:389-393 | a send whose timer fires before any reply is rejected with 'Request timeout' |
| Supervisor.ReconnectUnlessQuitting | electron-app/src/main.js:341-345 | a reconnect timer dials a new socket iff the app is not quitting |
| Supervisor.CloseThenReconnect | electron-app/src/main.js:331-346 | 'close' pushes a not-connected status and a 5000 ms reconnect that dials iff the app is not quitting |
| Supervisor.NoReconnectAfterQuit | electron-app/src/main.js:341-345 | after 'before-quit' no reconnect timer dials |
| Supervisor.ToggleTwiceRestores | electron-app/src/main.js:397-399 | two toggles restore a boolean `voiceEnabled` and every other setting |
| Supervisor.SettingsObject.constructor | electron-app/src/main-fixed.js:17-22 | the settings object holds the given fields |
| Supervisor.App.constructor | electron-app/src/main.js:10-25 | the fields are those of `Initial` |
| Supervisor.App.ConnectWebSocket | electron-app/src/main.js:306-355 | the new state is `ConnectStep` of the old |
| Supervisor.App.StartBackend | electron-app/src/main.js:251-304 | the new state is `StartAndConnect` of the old |
| Supervisor.App.WhenReady | electron-app/src/main.js:423-427 | the new state is `ReadyStep` of the old |
| Supervisor.App.OnOpen | electron-app/src/main.js:310-318 | the new state is `OpenStep` of the old |
| Supervisor.App.HandleMessage | electron-app/src/main.js:373-384 | the new state is `Handle` of the old |
| Supervisor.App.OnMessage | electron-app/src/main.js:320-386 | the loop over the registered handlers gives `MessageStep` of the old state |
| Supervisor.App.OnClose | electron-app/src/main.js:331-346 | the new state is `CloseStep` of the old |
| Supervisor.App.OnError | electron-app/src/main.js:348-350 | the new state is `ErrorStep` of the old |
| Supervisor.App.SendToPython | electron-app/src/main.js:357-395 | the new state is `SendStep` of the old, and the returned request is the new one |
| Supervisor.App.ExpireRequest | electron-app/src/main.js:390-393 | the handler is removed where the entry point does so and the request is rejected with 'Request timeout' |
| Supervisor.App.FireTimer | electron-app/src/main.js:341-393 | the new state is `FireStep` of the old, and every pending request still has its timer |
| Supervisor.App.RunTimerJob | electron-app/src/main.js:341-393 | the new state is `RunJob` of the old |
| Supervisor.App.EndWarmup | electron-app/src/main-working.js:201-213 | the new state is `WarmupStep` of the old |
| Supervisor.App.OnStdout | electron-app/src/main-working.js:171-181 | the new state is `StdoutStep` of the old |
| Supervisor.StdoutStep | electron-app/src/main-working.js:171-181 | only currentPort can change: it becomes parseInt of the captured digits where the entry point looks for them, otherwise nothing changes; the state stays well formed and no pending request loses its timer |
| Supervisor.App.OnProcessExit | electron-app/src/main.js:282-290 | a not-connected, not-running status is pushed |
| Supervisor.ExitStep | electron-app/src/main.js:282-290 | only the pushes change: a not-connected, not-running status is appended; the state stays well formed and no pending request loses its timer |
| Supervisor.App.GetBackendStatus | electron-app/src/main.js:243-248 | the status is `StatusOf` the current state, connected iff the socket is OPEN |
| Supervisor.App.GetSettings | electron-app/src/main.js:226-228 | the settings object itself is returned |
| Supervisor.App.SaveSettings | electron-app/src/main.js:230-236 | the new state is `SaveStep` of the old; main.js builds a fresh object and leaves the old one alone, the other entry points change the shared object in place |
| Supervisor.App.ToggleVoice | electron-app/src/main.js:397-404 | the new state is `ToggleStep` of the old, on the same settings object |
| Supervisor.App.BeforeQuit | electron-app/src/main.js:43-45 | the new state is `QuitStep` of the old |
| MainApp.IdMatchSettles | electron-app/src/main.js:376-378 | a reply with the request's id settles it whatever its type, and the handler leaves the socket |
| MainApp.UnreadableMessageRejects | electron-app/src/main.js:380-383 | a message that does not parse rejects every waiting request and removes its handler |
| MainApp.TimeoutUnregisters | electron-app/src/main.js:389-393 | the timeout removes the handler and rejects with 'Request timeout'; on a settled request it changes no promise |
| MainApp.ErrorDoesNotReconnect | electron-app/src/main.js:348-350 | 'error' schedules nothing |
| MainApp.StartupConnects | electron-app/src/main.js:251-304 | without the script, port 8000 is dialled at once; with it, the process is spawned and the dial waits for the 3000 ms timer |
| MainApp.StatusWithoutPort | electron-app/src/main.js:243-248 | the status has no port field |
| MainFixed.SupervisesLikeMain | electron-app/src/main-fixed.js:296-386 | apart from port, start-up and in-place merge, the rules are those of main.js |
| MainFixed.DefaultPort8001 | electron-app/src/main-fixed.js:21 | with no stored port, `pythonPort` is 8001 |
| MainFixed.DeferredStartup | electron-app/src/main-fixed.js:410-427 | the ready event only schedules a 1000 ms timer; when it fires, without the script the socket is dialled at once, with it the process is spawned and the dial waits 3000 ms |
| MainWorking.IdIsIgnored | electron-app/src/main-working.js:305-312 | a reply with the request's id but another type settles nothing |
| MainWorking.DeliverClearsTimer | electron-app/src/main-working.js:309-314 | handlers that fire clear their request's timeout |
| MainWorking.ReplyClearsTimeout | electron-app/src/main-working.js:305-312 | a 'chat_response' resolves every waiting request, clears its timeout and removes its handler from the current socket |
| MainWorking.LateReplyAfterTimeout | electron-app/src/main-working.js:301-312 | the timeout rejects but leaves the handler registered; the next 'chat_response' removes it and the promise stays rejected |
| MainWorking.ErrorThenReconnect | electron-app/src/main-working.js:252-278 | 'error' schedules a 2000 ms reconnect that dials iff not quitting, and 'close' independently schedules a 5000 ms one |
| MainWorking.MissingScriptNeverConnects | electron-app/src/main-working.js:345-351 | without the script start-up changes nothing, so no connection is ever made |
| MainWorking.StdoutSetsPort | electron-app/src/main-working.js:175-180 | a stdout line announcing the port sets `currentPort` to it |
| MainWorking.PortFileOverrides | electron-app/src/main-working.js:201-213 | after the 5000 ms wait the port file's number becomes the port, and the connection made 2000 ms later dials it |
| MainWorking.StartupWaitsAndReportsPort | electron-app/src/main-working.js:144-202 | start-up spawns the process and waits 5000 ms; the port starts at 8000 and the status reports it |
| Chat.Append | electron-app/src/components/chat.js:169-179 | a message is pushed and the history keeps only the last 100: the result is the last 100 of history plus the message, and ends with the message |
| Chat.AppendAllKeepsLast | electron-app/src/components/chat.js:169-179 | adding messages one at a time keeps exactly the last 100 of the whole sequence |
| Chat.Remember | electron-app/src/components/chat.js:242-249 | a conversation is put first and the saved list is cut to 50; the rest is the previous list in order |
| Chat.RememberAllNewestFirst | electron-app/src/components/chat.js:242-249 | after several saves the list is the conversations newest first followed by the older list, cut to 50 |
| Chat.Abbreviate | electron-app/src/components/chat.js:286-287 | lengths count UTF-16 code units, as JavaScript does: text of at most n units is kept; longer text becomes its longest prefix of at most n units (one more character would pass n) plus "...", so between n + 2 and n + 3 units in all |
| Common.TakeUnitsMaximal | electron-app/src/components/chat.js:286-287 | `substring(0, n)` stops as late as it can: when the cut leaves characters out, one more character would pass n units |
| Chat.HistoryLine | electron-app/src/components/chat.js:281-287 | a history entry renders iff both userMessage and aiResponse are strings; the title is Abbreviate of the userMessage at 50 UTF-16 units and the preview Abbreviate of the aiResponse at 100, so at most 53 and 103 units and unchanged when within 50 and 100 |
| Chat.QuickPrompt | electron-app/src/components/chat.js:189-200 | exactly the four quick-action keys have a (non-empty) prompt |
| Chat.ElementTexts | electron-app/src/components/chat.js:115 | `join` prints each element in order, null and undefined as "" |
| Chat.FilesClause | electron-app/src/components/chat.js:113-115 | the files clause exists iff files is an array; it is " Found n files: " for its length n, the first min(3, n) elements as `join` prints them separated by ", ", and "..." iff n > 3 |
| Chat.FilesClauseNamesFirstThree | electron-app/src/components/chat.js:113-115 | with three files or more, exactly the first three are named, separated by ", ", followed by "..." iff there are more than three |
| Chat.FilesClauseNamesAll | electron-app/src/components/chat.js:113-115 | with one or two files every file is named and no "..." follows |
| Chat.ContentClause | electron-app/src/components/chat.js:121-123 | the content clause exists iff content is a string and is the break, the label and the content cut to 100 UTF-16 units |
| Chat.Clauses | electron-app/src/components/chat.js:109-123 | the suffix is, in this order, the files clause when files is a non-empty value, the alarm id clause when the id is truthy and the content clause when content is truthy; it is empty iff none applies; formatting raises exactly when a clause would read a property of a non-array or non-string |
| Chat.ActionNote | electron-app/src/components/chat.js:104-129 | a falsy result shows nothing; a failure shows its message or the failure default as an error; a success shows the message or the success default followed by the clauses (as a string) when any applies, else the message value itself, as kind success; only a success can raise |
| Chat.SuccessNoteText | electron-app/src/components/chat.js:109-123 | a success note is the message or the default, then the files clause, the alarm id and the content preview, in that order, each only when its field calls for it |
| Chat.SuccessNoteListsFiles | electron-app/src/components/chat.js:110-115 | a success listing files starts with the message or the default followed by " Found n files: " and the first three names joined by ", " |
| Chat.SuccessLeadsWithMessage | electron-app/src/components/chat.js:109-111 | a success with a non-empty message shows that message first |
| Chat.AlarmIdShown | electron-app/src/components/chat.js:117-119 | an alarm id n is shown as the message followed by " (Alarm ID: n)" |
| Chat.PreviewStartsParagraph | electron-app/src/components/chat.js:121-123 | with the corrected break the note ends with two newlines, the label and the content preview |
| Chat.WrittenBreakShowsBackslashes | electron-app/src/components/chat.js:122 | as written the separator is the four characters backslash, n, backslash, n and contains no newline |
| Chat.Add | electron-app/src/components/chat.js:131-180 | without the messages element nothing changes; otherwise the message is appended under the 100 cap and nothing else changes |
| Chat.Save | electron-app/src/components/chat.js:242-255 | the conversation is saved first in the list capped at 50 and the displayed messages are untouched |
| Chat.ShowActionResult | electron-app/src/components/chat.js:104-129 | showing a result with a given break raises exactly when its note raises and then changes nothing; otherwise its note, if any, is added as an AI message of the note's kind and nothing else changes; the saved list is never touched |
| Chat.LastUserText | electron-app/src/components/chat.js:92 | the text found is the text of some user message in the history |
| Chat.UserMessage | electron-app/src/components/chat.js:92 | the corrected userMessage is truthy or the empty string |
| Chat.UserMessageAsWritten | electron-app/src/components/chat.js:92 | as written the userMessage is the next-to-last message's text, or "" when there is none or it is falsy |
| Chat.SavedUser | electron-app/src/components/chat.js:92 | the build as written saves UserMessageAsWritten and the corrected build UserMessage |
| Chat.BreakOf | electron-app/src/components/chat.js:122 | only the corrected break holds a newline |
| Chat.Conversation | electron-app/src/components/chat.js:90-96 | the saved conversation has exactly the five keys, with the user's message, the response and the action result of the reply |
| Chat.RecordReply | electron-app/src/components/chat.js:76-96 | handling reply data raises iff its action result's note raises; otherwise the messages are those `Shown` adds (the truthy response as an AI message, then the action result's note) and exactly one conversation, with the build's userMessage, is saved in front |
| Chat.ReplyShowsResponseThenNote | electron-app/src/components/chat.js:79-87 | reply data with a truthy response adds exactly that response as a normal AI message, followed by its action result's note when there is one, and nothing else |
| Chat.ResponseStep | electron-app/src/components/chat.js:75-102 | a reply with data is handled as data with the build's break; any other reply saves nothing and cannot raise |
| Chat.ResponsePrecedence | electron-app/src/components/chat.js:97-101 | without data the AI shows the reply's truthy response, otherwise the request to rephrase |
| Chat.Begin | electron-app/src/components/chat.js:42-58 | a message goes out iff no send is in flight and the text (or the trimmed input) is truthy; then the send is marked in flight and the message is that text |
| Chat.Finish | electron-app/src/components/chat.js:59-72 | after the reply the send is no longer in flight; if handling it raised, the apology is added |
| Chat.SendWhileProcessingIgnored | electron-app/src/components/chat.js:43 | while a send is in flight a second send changes nothing and sends nothing |
| Chat.LastUserTextAt | electron-app/src/components/chat.js:57-92 | when the user's message has no later user message, it is the one found |
| Chat.AddKeepsUser | electron-app/src/components/chat.js:131-180 | adding an AI message keeps the user's message the latest user message, one place further back |
| Chat.RecordReplyNamesUser | electron-app/src/components/chat.js:76-96 | in the corrected build the conversation saved from reply data names the latest user message |
| Chat.SavedConversationNamesSender | electron-app/src/components/chat.js:42-96 | in the corrected build the message just sent is the userMessage of the conversation its reply saves |
| Chat.RecordReplyAsWrittenNamesResponse | electron-app/src/components/chat.js:76-96 | as written, reply data with a response and an action result that adds a note saves the response as the userMessage |
| Chat.SavedConversationAsWrittenNamesResponse | electron-app/src/components/chat.js:42-96 | as written, a send whose reply has a response and a noted action result saves that response, not the message sent, as the userMessage |
| Chat.UserMessageAsWrittenIsReply | electron-app/src/components/chat.js:92 | with messages [hi, Done., Alarm set] the code as written saves "Done." where "hi" was meant |
| Chat.QuickActionSends | electron-app/src/components/chat.js:189-201 | an idle quick action with a known key sends its prompt; an unknown key is none of the four |
| Chat.ChatManager.constructor | electron-app/src/components/chat.js:4-9 | a new manager of the given build shows no messages, is idle and holds the stored history |
| Chat.ChatManager.AddMessage | electron-app/src/components/chat.js:131-180 | the state becomes Add of the old state |
| Chat.ChatManager.SaveToHistory | electron-app/src/components/chat.js:242-255 | the state becomes Save of the old state |
| Chat.ChatManager.HandleActionResult | electron-app/src/components/chat.js:104-129 | the state and the raised flag are those of ShowActionResult with the build's break |
| Chat.ChatManager.HandleResponse | electron-app/src/components/chat.js:75-102 | the state and the raised flag are those of ResponseStep for the manager's build |
| Chat.ChatManager.SendMessage | electron-app/src/components/chat.js:42-58 | the state and the outgoing message are those of Begin |
| Chat.ChatManager.ResumeSend | electron-app/src/components/chat.js:59-72 | the state becomes Finish, for the manager's build, of the old state and the reply |
| Chat.ChatManager.HandleQuickAction | electron-app/src/components/chat.js:189-201 | an unknown key changes nothing; a known key sends its prompt as SendMessage would |
| SettingsView.Defaults | electron-app/src/components/settings.js:67-72 | the default settings have exactly the keys theme, voiceEnabled, autoStart and pythonPort |
| SettingsView.ValidateAsWritten | electron-app/src/components/settings.js:153-168 | as written the check throws on null or undefined settings and accepts iff the port is not a number outside 1024..65535 and the theme is one of dark, light, blue |
| SettingsView.Validate | electron-app/src/components/settings.js:153-168 | the corrected check accepts iff the port is a number within 1024..65535 and the theme is one of the three |
| SettingsView.Check | electron-app/src/components/settings.js:153-168 | the build as written applies ValidateAsWritten and the corrected build Validate |
| SettingsView.NonNumericPortPassesAsWritten | electron-app/src/components/settings.js:155 | settings with port "abc" pass the written check and fail the corrected one |
| SettingsView.MissingPortPassesAsWritten | electron-app/src/components/settings.js:155 | settings with no port pass the written check and fail the corrected one |
| SettingsView.ExponentPortRefusedAsWritten | electron-app/src/components/settings.js:155 | a port "1e9" is read as a number, as JavaScript does, and both checks refuse it |
| SettingsView.ExponentPortOutOfRange | electron-app/src/components/settings.js:155 | "1e9" converts to 1000000000, outside 1024..65535 |
| SettingsView.FormData | electron-app/src/components/settings.js:139-151 | the form yields the four keys: a non-empty theme, voice on unless unchecked, auto-start only when checked, and a non-zero port that is 8000 without an input |
| SettingsView.FormDataChecksAgree | electron-app/src/components/settings.js:139-168 | on what the form yields the written and the corrected check agree |
| SettingsView.FormPort | electron-app/src/components/settings.js:149 | the form's port is never 0, and is 8000 without an input |
| SettingsView.ShownForm | electron-app/src/components/settings.js:77-94 | a complete form shows the settings' theme, both switches and the port's decimal text |
| SettingsView.ReadForm | electron-app/src/components/settings.js:139-151 | a form showing a theme, two switches and a positive port's text reads back as exactly those four settings |
| SettingsView.FormPortDefaults | electron-app/src/components/settings.js:149 | the form's port is the parsed number, or 8000 when it does not parse or is 0 |
| SettingsView.FormPortHexadecimal | electron-app/src/components/settings.js:149 | a port field "0x" plus hexadecimal digits with a non-zero value reads as that value, as parseInt reads it |
| Common.HexDigitsParse | electron-app/src/components/settings.js:149 | parseInt reads "0x" followed by hexadecimal digits as their base-16 value |
| Common.ExponentLiteral | electron-app/src/components/settings.js:155 | Number("1e9") is 1000000000 |
| Common.DecimalDigitsNumber | electron-app/src/components/settings.js:155 | `Number()` of a string of decimal digits is the number they spell |
| SettingsView.ThemeColor | electron-app/src/components/settings.js:185-191 | light is #ffffff, blue is #0f1419 and every other theme gets the dark #0a0a0a |
| SettingsView.Refreshed | electron-app/src/components/settings.js:77-94 | refreshing the view keeps the settings, applies their theme (dark by default) with its colour and fills exactly the form elements that exist |
| SettingsView.PortTextRoundTrip | electron-app/src/components/settings.js:87-149 | a positive port written into the input parses back to itself |
| SettingsView.FormRoundTrip | electron-app/src/components/settings.js:77-151 | valid settings shown in a complete form read back from it unchanged |
| SettingsView.LoadStep | electron-app/src/components/settings.js:60-75 | a failed load shows the defaults, a readable answer is shown as is, and the view is refreshed |
| SettingsView.SaveStep | electron-app/src/components/settings.js:114-137 | a form that fails the build's check changes nothing and sends nothing; one that passes sends exactly the form data |
| SettingsView.ToggleStep | electron-app/src/components/settings.js:194-208 | unreadable settings change nothing; otherwise the request is the settings with voiceEnabled negated |
| SettingsView.ToggleTwiceRestores | electron-app/src/components/settings.js:194-208 | one toggle keeps every other setting and negates voiceEnabled; with the request handed back, two toggles restore the settings |
| SettingsView.ImportStep | electron-app/src/components/settings.js:263-289 | no file changes nothing; settings are sent iff the file parses and passes the build's check, and then exactly the parsed settings |
| SettingsView.ImportAsWrittenSendsNonNumericPort | electron-app/src/components/settings.js:263-289 | as written an imported file with port "abc" is sent to the main process; the corrected build drops it |
| SettingsView.ResetStep | electron-app/src/components/settings.js:292-310 | without confirmation nothing changes; once confirmed exactly the defaults are sent |
| SettingsView.SettingsManager.constructor | electron-app/src/components/settings.js:4-8 | a new manager of the given build holds empty settings and the given form and theme |
| SettingsView.SettingsManager.ApplyTheme | electron-app/src/components/settings.js:170-192 | the document theme becomes the given one and the colour its ThemeColor |
| SettingsView.SettingsManager.UpdateUI | electron-app/src/components/settings.js:77-94 | the view becomes Refreshed of the old view |
| SettingsView.SettingsManager.LoadSettings | electron-app/src/components/settings.js:60-75 | the view becomes LoadStep of the old view and the answer |
| SettingsView.SettingsManager.Save | electron-app/src/components/settings.js:114-137 | the view, the request and the notice are those of SaveStep |
| SettingsView.SettingsManager.ToggleVoice | electron-app/src/components/settings.js:194-208 | the view, the request and the notice are those of ToggleStep |
| SettingsView.SettingsManager.ImportSettings | electron-app/src/components/settings.js:263-289 | the view, the request and the notice are those of ImportStep |
| SettingsView.SettingsManager.ResetToDefaults | electron-app/src/components/settings.js:292-310 | the view, the request and the notice are those of ResetStep |
| IpcClient.StatusLabel | electron-app/src/utils/ipc.js:80-94 | the label is Connected iff connected and the process runs, Connecting... iff the process runs but is not connected, Disconnected iff it does not run |
| IpcClient.SystemInfo | electron-app/src/utils/ipc.js:126-137 | the colour is success, warning or error exactly in the three cases of the label |
| IpcClient.SystemInfoAgrees | electron-app/src/utils/ipc.js:80-137 | the system panel shows the same label as the status indicator |
| IpcClient.RouteOf | electron-app/src/utils/ipc.js:100-106 | reading a null or undefined message throws; chat_response goes to handleResponse and action_result to handleActionResult with the message's data; any other type is ignored |
| IpcClient.SendResult | electron-app/src/utils/ipc.js:55-67 | a successful send yields the main process's answer; a failed one yields success false, the error text and the apology, and never throws |
| IpcClient.FailedSendShowsSorry | electron-app/src/utils/ipc.js:59-66 | after a failed send the chat shows the apology as an AI message and saves no conversation |
| IpcClient.BackendRepliesRoute | electron-app/src/utils/ipc.js:100-106 | every reply the backend server sends is routed, chat replies to handleResponse and action replies to handleActionResult, each with its data |
| IpcClient.ForwardedChatReplyShowsText | electron-app/src/utils/ipc.js:101-102 | a chat reply built by the backend, once forwarded, shows the intent's truthy response as the last AI message and saves no conversation, because its data has no data of its own |
| IpcClient.BareReplyShowsText | electron-app/src/components/chat.js:75-98 | a reply object without data whose response is truthy shows that response as the last AI message and saves no conversation |
| IpcClient.ActionReplyShowsFailureDefault | electron-app/src/utils/ipc.js:103-104 | every action reply the backend builds nests the router's envelope, so once forwarded the chat shows the failure default as an error, whatever the action did |
| IpcClient.NestedResultShowsFailureDefault | electron-app/src/components/chat.js:104-128 | data holding only action, result and timestamp has no success of its own, so the note is the failure default marked as an error |
| RendererWorking.StatusLabel | electron-app/src/renderer-working.js:157-171 | the label is Connected iff connected, Starting... iff not connected but the process runs, Disconnected otherwise |
| RendererWorking.StatusStep | electron-app/src/renderer-working.js:149-150 | reading a null or undefined status throws; otherwise backendConnected becomes the status's connected and nothing else changes |
| RendererWorking.StatusVariantsDiffer | electron-app/src/renderer-working.js:157-171 | against the chat component's manager the labels differ only on a status connected without a running process, and on the name of the connecting state |
| RendererWorking.OpenWithoutProcessShownDifferently | electron-app/src/renderer-working.js:157-171 | with the main.js supervisor and no backend script, once the socket opens this renderer shows Connected while the chat component's manager shows Disconnected |
| RendererWorking.Probe | electron-app/src/renderer-working.js:367-376 | the connection test yields the status's connected, or false when the query fails or the status cannot be read |
| RendererWorking.Toggled | electron-app/src/renderer-working.js:95-99 | toggling gives light exactly from dark and dark from anything else |
| RendererWorking.ToggleTwiceRestores | electron-app/src/renderer-working.js:95-99 | two toggles restore the theme iff it is dark or light |
| RendererWorking.SavedTheme | electron-app/src/renderer-working.js:69-71 | the stored theme is used when non-empty, otherwise light |
| RendererWorking.SetTheme | electron-app/src/renderer-working.js:79-93 | the document theme and the stored theme both become the given one; the chat and the connection flag are untouched |
| RendererWorking.ToggleStepTwice | electron-app/src/renderer-working.js:95-99 | from dark or light, two toggles restore the document theme and store it |
| RendererWorking.InputAfter | electron-app/src/renderer-working.js:189 | the input is cleared only when no text was passed |
| RendererWorking.Begin | electron-app/src/renderer-working.js:177-202 | a message goes out iff idle, the text is truthy and the backend is connected; offline, the user's message and the warning are added and the send is not left in flight |
| RendererWorking.OfflineSendWarns | electron-app/src/renderer-working.js:199-208 | offline, nothing is sent, the last message is the warning and the next send is not blocked |
| RendererWorking.SendWhileProcessingIgnored | electron-app/src/renderer-working.js:178 | while a send is in flight a second send changes nothing and sends nothing |
| RendererWorking.ChatResponseStep | electron-app/src/renderer-working.js:213-230 | handling a response raises iff its action result's note raises; otherwise the messages are those `Chat.Shown` adds (the response, then the note) and one conversation with its response, action result and the build's userMessage is saved in front |
| RendererWorking.Finish | electron-app/src/renderer-working.js:194-210 | after the reply the send is not in flight; a failed call or unreadable reply adds the apology as an error; otherwise the reply's data, or the reply itself, is handled |
| RendererWorking.SavedConversationNamesSender | electron-app/src/renderer-working.js:177-229 | in the corrected build the message just sent is the userMessage of the conversation its reply saves |
| RendererWorking.SavedConversationNamesReply | electron-app/src/renderer-working.js:213-229 | as written, a reply whose data has a response and a noted action result saves that response as the userMessage |
| RendererWorking.QuickActionSends | electron-app/src/renderer-working.js:258-270 | when idle and connected a known quick action sends its prompt |
| RendererWorking.WorkingJarvisRenderer.constructor | electron-app/src/renderer-working.js:6-76 | a new renderer of the given build has no messages, is idle and not connected, and applies the saved theme only when #themeToggle exists |
| RendererWorking.WorkingJarvisRenderer.SetThemeTo | electron-app/src/renderer-working.js:79-93 | the state becomes SetTheme of the old state |
| RendererWorking.WorkingJarvisRenderer.ToggleTheme | electron-app/src/renderer-working.js:95-99 | the state becomes SetTheme with the toggled theme |
| RendererWorking.WorkingJarvisRenderer.UpdateBackendStatus | electron-app/src/renderer-working.js:149-174 | an unreadable status changes nothing; otherwise the state is that of StatusStep |
| RendererWorking.WorkingJarvisRenderer.AddMessage | electron-app/src/renderer-working.js:272-321 | the messages become Chat.Add of the old ones |
| RendererWorking.WorkingJarvisRenderer.SaveToHistory | electron-app/src/renderer-working.js:354-364 | the saved list becomes Chat.Save of the old one |
| RendererWorking.WorkingJarvisRenderer.HandleActionResult | electron-app/src/renderer-working.js:232-256 | the state and the raised flag are those of Chat.ShowActionResult |
| RendererWorking.WorkingJarvisRenderer.HandleChatResponse | electron-app/src/renderer-working.js:213-230 | the state and the raised flag are those of ChatResponseStep |
| RendererWorking.WorkingJarvisRenderer.SendMessage | electron-app/src/renderer-working.js:177-202 | the state and the outgoing message are those of Begin |
| RendererWorking.WorkingJarvisRenderer.ResumeSend | electron-app/src/renderer-working.js:194-210 | the state becomes Finish of the old state and the reply |
| RendererWorking.WorkingJarvisRenderer.HandleQuickAction | electron-app/src/renderer-working.js:258-270 | an unknown key changes nothing; a known key sends its prompt as SendMessage would |

## Left out

- I/O of every kind is not modelled: settings.json, alarms.json, the port file, `electron-store` and `localStorage` are abstract maps or arguments, and each write's success is a flag.
- Clocks, timers and sockets are abstract: time is an integer argument, a timer is a pending entry that an event fires, and a socket is a record of its ready state, handlers and sent frames. `datetime`/`timedelta`, ISO timestamps and `toLocaleString` are left out.
- Alarms: the human-readable `time_remaining` text of `list_alarms` is not modelled; the listing carries the remaining seconds as an integer.
- Alarms: `load_alarms` and `save_alarms` are file I/O and are not part of this model.
- BackendSettings: `export_settings` is not modelled. It refers to `time`, which settings_manager.py never imports, so it always returns False; it is file I/O besides.
- BackendSettings: the one-line accessors `get_ai_model`, `is_mock_mode`, `get_backend_port`, `is_voice_enabled` and `__str__` are not modelled; they only read a key.
- BackendSettings.LoadedSettings: a settings file holding a JSON list of key/value pairs, which `dict.update` would accept, is treated like any other non-object: the defaults are used.
- TaskRouter.ExecuteAction: a handler is assumed to return a dictionary; a handler returning another value is not modelled.
- IntentParser and MainWorking: regular-expression matching is an oracle (`search`), so what a pattern matches is not modelled.
- LlmInterface: the gpt4all model and `json.loads` are oracles; loading the model and the mock mode are not part of this model.
- SystemTasks: `subprocess`, `psutil`, the system-information figures (floating point) and the launch itself are oracles or left out; the model records what would be run.
- tasks/file_tasks.py and tasks/voice_tasks.py are not part of this model (filesystem, speech and microphone).
- IpcServer: FastAPI routing, the HTTP status endpoints and the `ws` framing are left out; the default response 'I processed your request.' is unreachable because a parsed intent always carries a response, so it is not modelled.
- Supervisor: strict id-keyed request matching and rejecting pending requests when the socket closes are not modelled, because no entry point implements them.
- Supervisor: window, tray and menu wiring (`createMainWindow`, `setupMenu`, `setupTray`) and `spawn` are left out; the process is a record of whether it runs and was killed.
- Chat, RendererWorking: DOM construction in `addMessage` and `updateHistoryPanel`, the typing indicator, the welcome messages and the loading overlay are left out.
- SettingsView: the voice indicator, tab switching, the modal's show/hide and `exportSettings` (a file download) are left out.
- IpcClient: window controls, notifications and global error handlers are left out.
- renderer.js, renderer-simple.js and main-simple.js are not part of this model; they are DOM, timer or mock code.
- BackendSettings.PyInt: only ASCII digits are read; `int()` also accepts other Unicode decimal digits ("８０００" is 8000), which the model refuses.
- IntentParser.AlarmParams, IntentParser.ParamsFor, IntentParser.ExtractParams, IntentParser.ParseIntent: the minutes group goes through the same ASCII-only `int()`, so a group of other Unicode decimal digits, which Python's `\d` matches (Arabic-Indic "٥" is 5), raises ValueError in the model where Python reads the number.
- BackendSettings.PyEqSymmetric, BackendSettings.SettingsManager.UpdateFromFrontend: the change test `!=` treats booleans as the numbers 0 and 1 only at the top level; lists and objects are compared as whole values, so `[1]` and `[True]` differ where Python finds them equal.
- TaskRouter.ExecuteAction: the TypeError text for parameters that are not a mapping is "argument after ** must be a mapping"; CPython also prefixes the callee's qualified name and appends ", not <type>", which the message "Invalid parameters for action …" then carries.
- IpcServer.ConnectionManager.BroadcastAsWritten, IpcServer.ConnectionManager.Broadcast: a broadcast runs as one step; a disconnect that another task makes while a send is awaited, which also changes the list being iterated, is not modelled.
- IntentParser.KeywordIntent, IntentParser.KeywordMatch, LlmInterface.GenerateResponse, BackendSettings.FrontendBool, SystemTasks.ResolveApp: `lower()` is modelled on A–Z only; other Unicode letters (and the KELVIN SIGN, which lowers to "k") are kept as they are.
- LlmInterface.GenerateResponse: the `context` argument is not modelled; `generate_response` accepts it at llm_interface.py:46 and never reads it.
- Chat.Abbreviate, Chat.HistoryLine, Chat.ContentClause: a cut that falls inside a surrogate pair drops the whole character, where JavaScript's `substring` keeps a lone high surrogate; lengths are otherwise counted in UTF-16 units as in the source.
- SettingsView.ValidateAsWritten, SettingsView.Validate, SettingsView.PortOutOfRange: `Number()` is modelled on exact rationals, so double rounding, overflow to Infinity (such as "1e400") and underflow are not modelled.
- SettingsView.FormPort, Supervisor.StdoutStep, Supervisor.WarmupStep: `parseInt` is exact, so precision loss on digit strings longer than a double holds (in the form, the stdout line or the port file) is not modelled.
- SettingsView.ValidateAsWritten: the `alert()` texts shown on a rejected setting are not modelled; only the verdict is.
- SettingsView.Spread: spreading a string or an array, which copies its index keys, is modelled as spreading nothing.
- Chat.QuickPrompt, SettingsView.ThemeColor: object lookups do not see keys inherited from `Object.prototype` ("constructor", "toString"), which the source finds truthy.
- IpcClient.StatusLabel, IpcClient.SystemInfo: a null or missing status gives "Disconnected", where the source throws on reading its fields.
- Supervisor.App.ToggleVoice: allowed under every variant's rules, although main-working.js defines no toggle-voice handler.
- Supervisor.ConnectStep: a port that reads as NaN still opens a connecting socket, where the `ws` constructor throws on the address "ws://127.0.0.1:NaN/ws".
- Supervisor: status pushes are recorded whether or not a main window exists, where the source guards them with `if (this.mainWindow)`.
- Common.Value: JSON numbers are integers only; a non-integer number is not modelled, so `int(8000.7)` truncating to 8000 in settings_manager.py:94, an imported pythonPort of 8000.5 that settings.js:155 accepts, and a fractional `minutes` such as 0.5 that `set_alarm` takes as a positive delay are outside the model.
- Alarms.AddAlarm: the clock is an integer and unbounded, so the OverflowError that `datetime.now() + timedelta(minutes=…)` raises past year 9999 (alarm_tasks.py:42), which set_alarm reports as "Failed to set alarm: …" (alarm_tasks.py:68-73), is not modelled; every positive `minutes` succeeds.

## Findings

| source | as written | input that shows it | evidently intended | confidence | as-written member | corrected member |
|---|---|---|---|---|---|---|
| python-backend/ipc_server.py:58-63 | `broadcast` removes a failed connection from the list it is iterating over, so the connection after it is skipped | connections [1, 2] where sending to 1 fails: 2 is never sent to | every connection is sent to once and exactly the failed ones are removed | not executed | IpcServer.BroadcastSkipsAfterFailure | IpcServer.BroadcastIntendedCorrect |
| electron-app/src/components/chat.js:92 | the saved userMessage is the next-to-last message in the history | a reply with response "Done." and an action result "Alarm set" after the user's "hi": "Done." is saved as the user's message | the text the user sent | not executed | Chat.UserMessageAsWrittenIsReply | Chat.SavedConversationNamesSender |
| electron-app/src/components/chat.js:122 | the content preview is preceded by `\\n\\n` inside a template literal, which shows a backslash and an n twice | a successful result with content "x" | a paragraph break before the preview, as renderer-working.js:249 writes it | not executed | Chat.WrittenBreakShowsBackslashes | Chat.PreviewStartsParagraph |
| electron-app/src/components/settings.js:155 | the port check only rejects numbers outside 1024..65535; a comparison with a non-number is false, so such a port passes | imported settings {theme: "dark", pythonPort: "abc"} or with no port at all | only a number within 1024..65535 passes | not executed | SettingsView.NonNumericPortPassesAsWritten | SettingsView.Validate |
| electron-app/src/renderer-working.js:225 | the saved userMessage is the next-to-last message in the history, as in chat.js | data with response "Done." and an action result whose note is added after the user's message: "Done." is saved as the user's message | the text the user sent | not executed | RendererWorking.SavedConversationNamesReply | RendererWorking.SavedConversationNamesSender |
