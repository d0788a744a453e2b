/** The Electron main process that supervises the Python backend. The entry
    points main.js, main-working.js and main-fixed.js share one design,
    modelled here once. There is a WebSocket link to the backend, over which
    chat requests are sent and answered. There is a child process, a settings
    object, and the messages pushed to the renderer window. Where the three
    differ, a `Rules` value says which way: how a reply is matched to its
    request, what the request timeout does, whether an 'error' event
    reconnects, where the port comes from, how start-up is sequenced, whether
    settings are merged in place. The modules MainApp, MainWorking and MainFixed
    fix the rules of each entry point and state its properties.

    Timers, sockets and the process are abstract. A timer is a pending entry
    that an event fires. A socket is a record of its ready state, its response
    handlers and the frames sent on it. JSON.parse is an oracle
    (None: it throws). */
module Supervisor {
  import opened Common
  import IpcServer

  datatype ReadyState = Connecting | Open | Closing | Closed

  /** One `new WebSocket(url)`: the URL it dials, its ready state, the
      response handlers registered on it (each named by the index of the
      request it settles) and the frames sent on it. */
  datatype Socket = Socket(url: string, state: ReadyState, handlers: seq<nat>, sent: seq<Value>)

  /** Why a `sendToPython` promise rejected: the socket was not open, the
      30-second timer fired, or a message could not be read. */
  datatype Reason = NotConnected | Timeout | BadMessage

  datatype Promise = Pending | Resolved(response: Value) | Rejected(reason: Reason)

  /** One `sendToPython` call: the id it sent (None when it was rejected
      before building the envelope), the message and its promise. */
  datatype Request = Request(id: Option<string>, message: Value, promise: Promise)

  /** What a pending timer does when it fires. */
  datatype Job =
    | Reconnect                   // connect again unless quitting
    | Connect                     // connect: the end of a start-up wait
    | RequestTimeout(request: nat)
    | DeferredStart               // the start-up deferral of main-fixed.js
    | Warmup                      // the wait before main-working.js reads the port file

  datatype Timer = Timer(delay: nat, job: Job)

  /** The `backend-status` record. `connected` and `pythonRunning` are the
      values of JavaScript `&&` expressions, null when there is no socket or
      no process. `port` is present only where the entry point reports it; a
      None inside it is NaN. */
  datatype Status = Status(connected: Value, pythonRunning: Value, port: Option<Option<int>>)

  /** A message sent to the renderer window. */
  datatype Push = BackendStatus(status: Status) | BackendMessage(message: Value) | VoiceToggled(enabled: Value)

  datatype Process = Process(killed: bool)

  datatype Matching = IdOrType | TypeOnly

  datatype Startup =
    | StartThenConnect          // start, wait 3000 ms, connect even if the script is missing
    | DeferredStartThenConnect  // after 1000 ms, the same
    | StartThenGatedConnect     // start, wait 5000 ms, read the port file, connect 2000 ms later; nothing if the script is missing

  /** How an entry point behaves where the three differ. `settingsPort` is the
      default of `settings.pythonPort`; None means the port is discovered and
      kept in `currentPort` instead. */
  datatype Rules = Rules(
    matching: Matching,
    timeoutUnregisters: bool,
    settleClearsTimeout: bool,
    errorReconnects: bool,
    settingsPort: Option<int>,
    statusHasPort: bool,
    startup: Startup,
    mergeInPlace: bool)

  /** What the events depend on outside the process: whether the backend
      script exists, and the text of the port file (None when it is absent or
      unreadable). */
  datatype Env = Env(scriptExists: bool, portFile: Option<string>)

  /** Everything the supervisor holds. */
  datatype State = State(
    sockets: seq<Socket>,
    ws: Option<nat>,
    requests: seq<Request>,
    timers: seq<Timer>,
    pushes: seq<Push>,
    process: Option<Process>,
    quitting: bool,
    currentPort: Option<int>,
    settings: map<string, Value>,
    store: map<string, Value>)

  // ------------------------------------------------------------------ invariants

  predicate HandlersKnown(sock: Socket, requests: seq<Request>) {
    forall h :: h in sock.handlers ==> h < |requests| && requests[h].id.Some?
  }

  /** The socket index, handler and timer references all point at something. */
  predicate WellFormed(st: State) {
    && (st.ws.Some? ==> st.ws.value < |st.sockets|)
    && (forall s :: 0 <= s < |st.sockets| ==> HandlersKnown(st.sockets[s], st.requests))
    && (forall t :: t in st.timers && t.job.RequestTimeout? ==> t.job.request < |st.requests|)
  }

  /** Every pending request still has its 30-second timer: none waits forever. */
  predicate NoRequestHangs(st: State) {
    forall r :: 0 <= r < |st.requests| && st.requests[r].promise.Pending? ==>
      Timer(30000, RequestTimeout(r)) in st.timers
  }

  /** The requests in `after` extend those in `before`: none disappears, ids and
      messages are kept, and a settled promise keeps its outcome. */
  predicate Extends(before: seq<Request>, after: seq<Request>) {
    && |before| <= |after|
    && forall r :: 0 <= r < |before| ==>
         && after[r].id == before[r].id
         && after[r].message == before[r].message
         && (!before[r].promise.Pending? ==> after[r] == before[r])
  }

  lemma WellFormedUnderExtends(st: State, requests: seq<Request>)
    requires WellFormed(st) && Extends(st.requests, requests)
    ensures WellFormed(st.(requests := requests))
  {
    forall s | 0 <= s < |st.sockets|
      ensures HandlersKnown(st.sockets[s], requests)
    {
      assert HandlersKnown(st.sockets[s], st.requests);
    }
  }

  // ------------------------------------------------------------------ helpers

  /** A promise settles once: later resolve/reject calls are no-ops. */
  function Settle(p: Promise, q: Promise): Promise {
    if p.Pending? then q else p
  }

  function RemoveAll(xs: seq<nat>, x: nat): (r: seq<nat>)
    ensures forall y :: y in r <==> y in xs && y != x
  {
    if xs == [] then [] else (if xs[0] == x then [] else [xs[0]]) + RemoveAll(xs[1..], x)
  }

  /** `clearTimeout` of request r's timer. */
  function WithoutTimeout(ts: seq<Timer>, r: nat): (o: seq<Timer>)
    ensures forall t :: t in o <==> t in ts && t.job != RequestTimeout(r)
  {
    if ts == [] then []
    else (if ts[0].job == RequestTimeout(r) then [] else [ts[0]]) + WithoutTimeout(ts[1..], r)
  }

  /** The timers after timer k fired. */
  function RemoveAt(ts: seq<Timer>, k: nat): (o: seq<Timer>)
    requires k < |ts|
    ensures forall t :: t in o ==> t in ts
    ensures forall t :: t in ts && t != ts[k] ==> t in o
  {
    assert ts == ts[..k] + [ts[k]] + ts[k + 1..];
    ts[..k] + ts[k + 1..]
  }

  /** Dropping a timer keeps a state well-formed. */
  lemma DropTimerWellFormed(st: State, k: nat)
    requires WellFormed(st) && k < |st.timers|
    ensures WellFormed(st.(timers := RemoveAt(st.timers, k)))
  {
  }

  predicate IsOpen(st: State) {
    st.ws.Some? && st.ws.value < |st.sockets| && st.sockets[st.ws.value].state == Open
  }

  /** `this.pythonProcess && !this.pythonProcess.killed`. */
  function Running(st: State): Value {
    if st.process.None? then Null else Bool(!st.process.value.killed)
  }

  function PortField(rules: Rules, st: State): Option<Option<int>> {
    if rules.statusHasPort then Some(st.currentPort) else None
  }

  /** `get-backend-status`. */
  function StatusOf(rules: Rules, st: State): (r: Status)
    requires WellFormed(st)
    ensures JsTruthy(r.connected) <==> IsOpen(st)
    ensures JsTruthy(r.pythonRunning) <==> st.process.Some? && !st.process.value.killed
    ensures r.port.Some? <==> rules.statusHasPort
    ensures r.port.Some? ==> r.port.value == st.currentPort
  {
    Status(if st.ws.None? then Null else Bool(st.sockets[st.ws.value].state == Open),
           Running(st), PortField(rules, st))
  }

  /** The port text in the socket URL: String(settings.pythonPort) or the
      discovered port (NaN prints as "NaN"). */
  function PortText(rules: Rules, st: State): string {
    if rules.settingsPort.Some? then JsString(Prop(Obj(st.settings), "pythonPort"))
    else if st.currentPort.Some? then IntToString(st.currentPort.value)
    else "NaN"
  }

  function Url(rules: Rules, st: State): string {
    "ws://127.0.0.1:" + PortText(rules, st) + "/ws"
  }

  /** The outbound envelope of `sendToPython`. */
  function Envelope(id: string, message: Value, stamp: string): Value {
    Obj(map["id" := Str(id), "type" := Str("chat"), "message" := message, "timestamp" := Str(stamp)])
  }

  /** Whether a parsed reply satisfies the response handler of a request. */
  predicate Matches(m: Matching, v: Value, id: Option<string>) {
    || (m == IdOrType && id.Some? && Prop(v, "id") == Str(id.value))
    || Prop(v, "type") == Str("chat_response")
  }

  /** Whether the handler settles its request: the message is unreadable
      (it does not parse, or it is `null` and reading `.id` throws), or it
      matches. */
  predicate Fires(m: Matching, parsed: Option<Value>, id: Option<string>) {
    parsed.None? || parsed.value.Null? || Matches(m, parsed.value, id)
  }

  function Outcome(parsed: Option<Value>): (p: Promise)
    ensures !p.Pending?
  {
    if parsed.None? || parsed.value.Null? then Rejected(BadMessage) else Resolved(parsed.value)
  }

  // ------------------------------------------------------------------ steps

  function InitialSettings(rules: Rules, store: map<string, Value>): map<string, Value> {
    var m := map["theme" := PyGet(store, "theme", Str("dark")),
                 "voiceEnabled" := PyGet(store, "voiceEnabled", Bool(true)),
                 "autoStart" := PyGet(store, "autoStart", Bool(false))];
    if rules.settingsPort.Some? then m["pythonPort" := PyGet(store, "pythonPort", Int(rules.settingsPort.value))] else m
  }

  /** The state before any event: settings read from the store with their
      defaults, the discovered port at 8000. */
  function Initial(rules: Rules, store: map<string, Value>): (st: State)
    ensures WellFormed(st) && NoRequestHangs(st)
  {
    State([], None, [], [], [], None, false, Some(8000), InitialSettings(rules, store), store)
  }

  /** `connectWebSocket()`: a new socket becomes the current one. */
  function ConnectStep(rules: Rules, st: State): (o: State)
    requires WellFormed(st)
    ensures WellFormed(o) && o.requests == st.requests && o.timers == st.timers
    ensures NoRequestHangs(st) ==> NoRequestHangs(o)
  {
    st.(sockets := st.sockets + [Socket(Url(rules, st), Connecting, [], [])], ws := Some(|st.sockets|))
  }

  /** `ws.off('message', handler)` for request r's handler: it is removed
      from the current socket, whichever socket it was registered on. */
  function Off(st: State, r: nat): (o: State)
    requires WellFormed(st)
    ensures WellFormed(o) && o.requests == st.requests && o.timers == st.timers
    ensures o.ws == st.ws && |o.sockets| == |st.sockets|
    ensures st.ws.Some? ==> forall h :: h in o.sockets[st.ws.value].handlers <==>
                                        h in st.sockets[st.ws.value].handlers && h != r
  {
    if st.ws.Some? then
      var w := st.ws.value;
      st.(sockets := st.sockets[w := st.sockets[w].(handlers := RemoveAll(st.sockets[w].handlers, r))])
    else st
  }

  /** What a response handler does before settling: `ws.off`, and the
      `clearTimeout` of its timer where the entry point has one. */
  function Unregister(rules: Rules, st: State, r: nat): (o: State)
    requires WellFormed(st)
    ensures WellFormed(o) && o.requests == st.requests && o.ws == st.ws && |o.sockets| == |st.sockets|
    ensures forall t :: t in st.timers && t.job != RequestTimeout(r) ==> t in o.timers
    ensures st.ws.Some? ==> forall h :: h in o.sockets[st.ws.value].handlers <==>
                                        h in st.sockets[st.ws.value].handlers && h != r
  {
    var st1 := Off(st, r);
    if rules.settleClearsTimeout then st1.(timers := WithoutTimeout(st1.timers, r)) else st1
  }

  function SettleRequest(st: State, r: nat, p: Promise): (o: State)
    requires WellFormed(st) && r < |st.requests|
    ensures WellFormed(o) && Extends(st.requests, o.requests) && |o.requests| == |st.requests|
  {
    var requests := st.requests[r := st.requests[r].(promise := Settle(st.requests[r].promise, p))];
    WellFormedUnderExtends(st, requests);
    st.(requests := requests)
  }

  /** Request r's response handler seeing one message. */
  function Handle(rules: Rules, st: State, r: nat, parsed: Option<Value>): (o: State)
    requires WellFormed(st) && r < |st.requests|
    ensures WellFormed(o) && Extends(st.requests, o.requests) && |o.requests| == |st.requests|
    ensures forall q :: 0 <= q < |st.requests| && q != r ==> o.requests[q] == st.requests[q]
    ensures o.requests[r].promise ==
              if Fires(rules.matching, parsed, st.requests[r].id)
              then Settle(st.requests[r].promise, Outcome(parsed)) else st.requests[r].promise
    ensures NoRequestHangs(st) ==> NoRequestHangs(o)
    ensures o.ws == st.ws && |o.sockets| == |st.sockets|
    ensures st.ws.Some? ==> forall h :: h in o.sockets[st.ws.value].handlers ==> h in st.sockets[st.ws.value].handlers
    ensures st.ws.Some? && Fires(rules.matching, parsed, st.requests[r].id) ==> r !in o.sockets[st.ws.value].handlers
    ensures forall t :: t in o.timers ==> t in st.timers
    ensures rules.settleClearsTimeout && Fires(rules.matching, parsed, st.requests[r].id) ==>
              forall t :: t in o.timers ==> t.job != RequestTimeout(r)
  {
    if Fires(rules.matching, parsed, st.requests[r].id) then
      SettleRequest(Unregister(rules, st, r), r, Outcome(parsed))
    else st
  }

  /** The registered response handlers, in order, seeing one message. */
  function Deliver(rules: Rules, st: State, hs: seq<nat>, parsed: Option<Value>): (o: State)
    requires WellFormed(st) && forall h :: h in hs ==> h < |st.requests|
    ensures WellFormed(o) && Extends(st.requests, o.requests) && |o.requests| == |st.requests|
    ensures NoRequestHangs(st) ==> NoRequestHangs(o)
    ensures o.ws == st.ws && |o.sockets| == |st.sockets|
    ensures st.ws.Some? ==> forall h :: h in o.sockets[st.ws.value].handlers ==> h in st.sockets[st.ws.value].handlers
    ensures forall t :: t in o.timers ==> t in st.timers
    decreases |hs|
  {
    if hs == [] then st
    else
      assert hs[0] in hs && forall h :: h in hs[1..] ==> h in hs;
      Deliver(rules, Handle(rules, st, hs[0], parsed), hs[1..], parsed)
  }

  /** A 'message' event on socket s: the forwarding listener pushes what
      parses, then every response handler registered at that moment runs. */
  function MessageStep(rules: Rules, st: State, s: nat, parsed: Option<Value>): (o: State)
    requires WellFormed(st) && s < |st.sockets|
    ensures WellFormed(o) && Extends(st.requests, o.requests)
    ensures NoRequestHangs(st) ==> NoRequestHangs(o)
  {
    var st1 := if parsed.Some? then st.(pushes := st.pushes + [BackendMessage(parsed.value)]) else st;
    assert HandlersKnown(st.sockets[s], st.requests);
    Deliver(rules, st1, st.sockets[s].handlers, parsed)
  }

  /** `sendToPython(message)`; `now` is Date.now() and `stamp` the ISO time. */
  function SendStep(st: State, message: Value, now: nat, stamp: string): (o: State)
    requires WellFormed(st)
    ensures WellFormed(o) && Extends(st.requests, o.requests) && |o.requests| == |st.requests| + 1
    ensures NoRequestHangs(st) ==> NoRequestHangs(o)
  {
    if !IsOpen(st) then
      var requests := st.requests + [Request(None, message, Rejected(NotConnected))];
      WellFormedUnderExtends(st, requests);
      st.(requests := requests)
    else
      var id := NatToString(now);
      var n := |st.requests|;
      var w := st.ws.value;
      var sock := st.sockets[w];
      var requests := st.requests + [Request(Some(id), message, Pending)];
      WellFormedUnderExtends(st, requests);
      st.(requests := requests,
          sockets := st.sockets[w := sock.(handlers := sock.handlers + [n], sent := sock.sent + [Envelope(id, message, stamp)])],
          timers := st.timers + [Timer(30000, RequestTimeout(n))])
  }

  /** Start the backend and, once the start-up wait or the early return is
      over, connect (main.js `init`, the deferred start of main-fixed.js). */
  function StartAndConnect(rules: Rules, st: State, scriptExists: bool): (o: State)
    requires WellFormed(st)
    ensures WellFormed(o) && o.requests == st.requests
    ensures NoRequestHangs(st) ==> NoRequestHangs(o)
  {
    if !scriptExists then ConnectStep(rules, st)
    else st.(process := Some(Process(false)), timers := st.timers + [Timer(3000, Connect)])
  }

  /** The app becoming ready. */
  function ReadyStep(rules: Rules, st: State, scriptExists: bool): (o: State)
    requires WellFormed(st)
    ensures WellFormed(o) && o.requests == st.requests
    ensures NoRequestHangs(st) ==> NoRequestHangs(o)
  {
    match rules.startup
    case StartThenConnect => StartAndConnect(rules, st, scriptExists)
    case DeferredStartThenConnect => st.(timers := st.timers + [Timer(1000, DeferredStart)])
    case StartThenGatedConnect =>
      if !scriptExists then st
      else st.(process := Some(Process(false)), timers := st.timers + [Timer(5000, Warmup)])
  }

  /** Every pending request has its timer, except possibly the one `job` times out. */
  predicate HangsAtMostOn(st: State, job: Job) {
    forall r :: 0 <= r < |st.requests| && st.requests[r].promise.Pending? && job != RequestTimeout(r) ==>
      Timer(30000, RequestTimeout(r)) in st.timers
  }

  /** The callback of a timer whose entry has already left the timer list. */
  function RunJob(rules: Rules, st: State, job: Job, env: Env): (o: State)
    requires WellFormed(st) && (job.RequestTimeout? ==> job.request < |st.requests|)
    ensures WellFormed(o) && Extends(st.requests, o.requests)
    ensures HangsAtMostOn(st, job) ==> NoRequestHangs(o)
  {
    match job
    case Reconnect => if st.quitting then st else ConnectStep(rules, st)
    case Connect => ConnectStep(rules, st)
    case RequestTimeout(r) => ExpireStep(rules, st, r)
    case DeferredStart => StartAndConnect(rules, st, env.scriptExists)
    case Warmup => WarmupStep(st, env.portFile)
  }

  /** Request r's 30-second timer: `ws.off` where the entry point calls it,
      then the promise is rejected with 'Request timeout'. */
  function ExpireStep(rules: Rules, st: State, r: nat): (o: State)
    requires WellFormed(st) && r < |st.requests|
    ensures WellFormed(o) && Extends(st.requests, o.requests) && o.timers == st.timers
    ensures HangsAtMostOn(st, RequestTimeout(r)) ==> NoRequestHangs(o)
  {
    var st1 := if rules.timeoutUnregisters then Off(st, r) else st;
    var o := SettleRequest(st1, r, Rejected(Timeout));
    assert !o.requests[r].promise.Pending?;
    o
  }

  /** The end of the start-up wait of main-working.js: the port file, when
      present, gives the port, and the connection follows 2 seconds later. */
  function WarmupStep(st: State, portFile: Option<string>): (o: State)
    requires WellFormed(st)
    ensures WellFormed(o) && o.requests == st.requests
    ensures NoRequestHangs(st) ==> NoRequestHangs(o)
  {
    st.(currentPort := if portFile.Some? then JsParseInt(Strip(JavaScript, portFile.value)) else st.currentPort,
        timers := st.timers + [Timer(2000, Connect)])
  }

  /** Timer k firing: it leaves the timer list, then its callback runs. */
  function FireStep(rules: Rules, st: State, k: nat, env: Env): (o: State)
    requires WellFormed(st) && k < |st.timers|
    ensures WellFormed(o) && Extends(st.requests, o.requests)
    ensures NoRequestHangs(st) ==> NoRequestHangs(o)
  {
    var t := st.timers[k];
    assert t in st.timers;
    DropTimerWellFormed(st, k);
    var st1 := st.(timers := RemoveAt(st.timers, k));
    assert NoRequestHangs(st) ==> HangsAtMostOn(st1, t.job);
    RunJob(rules, st1, t.job, env)
  }

  /** The 'open' event of socket s. */
  function OpenStep(rules: Rules, st: State, s: nat): (o: State)
    requires WellFormed(st) && s < |st.sockets|
    ensures WellFormed(o) && o.requests == st.requests && o.timers == st.timers
  {
    st.(sockets := st.sockets[s := st.sockets[s].(state := Open)],
        pushes := st.pushes + [BackendStatus(Status(Bool(true), Bool(true), PortField(rules, st)))])
  }

  /** The 'close' event of socket s: a status push and a reconnect timer. */
  function CloseStep(rules: Rules, st: State, s: nat): (o: State)
    requires WellFormed(st) && s < |st.sockets|
    ensures WellFormed(o) && o.requests == st.requests
    ensures NoRequestHangs(st) ==> NoRequestHangs(o)
  {
    st.(sockets := st.sockets[s := st.sockets[s].(state := Closed)],
        pushes := st.pushes + [BackendStatus(Status(Bool(false), Running(st), PortField(rules, st)))],
        timers := st.timers + [Timer(5000, Reconnect)])
  }

  /** The 'error' event of a socket. */
  function ErrorStep(rules: Rules, st: State): (o: State)
    requires WellFormed(st)
    ensures WellFormed(o) && o.requests == st.requests
    ensures NoRequestHangs(st) ==> NoRequestHangs(o)
  {
    if rules.errorReconnects then st.(timers := st.timers + [Timer(2000, Reconnect)]) else st
  }

  /** A chunk of the backend's stdout; `portMatch` is the digits captured by
      /Auto-selected port: (\d+)/, where the entry point looks for them. */
  function StdoutStep(rules: Rules, st: State, portMatch: Option<string>): (o: State)
    ensures o == st.(currentPort := o.currentPort)
    ensures rules.settingsPort.None? && portMatch.Some? ==> o.currentPort == JsParseInt(portMatch.value)
    ensures rules.settingsPort.Some? || portMatch.None? ==> o == st
    ensures WellFormed(st) ==> WellFormed(o)
    ensures NoRequestHangs(st) ==> NoRequestHangs(o)
  {
    if rules.settingsPort.None? && portMatch.Some? then st.(currentPort := JsParseInt(portMatch.value)) else st
  }

  /** The backend process exiting. */
  function ExitStep(st: State): (o: State)
    ensures o == st.(pushes := o.pushes)
    ensures o.pushes == st.pushes + [BackendStatus(Status(Bool(false), Bool(false), None))]
    ensures WellFormed(st) ==> WellFormed(o)
    ensures NoRequestHangs(st) ==> NoRequestHangs(o)
  {
    st.(pushes := st.pushes + [BackendStatus(Status(Bool(false), Bool(false), None))])
  }

  /** 'before-quit': set `isQuitting`, close the socket and kill the process. */
  function QuitStep(st: State): (o: State)
    requires WellFormed(st)
    ensures WellFormed(o) && o.requests == st.requests && o.timers == st.timers
  {
    var sockets := if st.ws.Some? && st.sockets[st.ws.value].state in {Connecting, Open}
                   then st.sockets[st.ws.value := st.sockets[st.ws.value].(state := Closing)]
                   else st.sockets;
    st.(quitting := true, sockets := sockets,
        process := if st.process.Some? then Some(Process(true)) else None)
  }

  /** `save-settings`: the new keys override, the others stay. */
  function SaveStep(st: State, newSettings: map<string, Value>): (o: State)
    ensures o.settings.Keys == st.settings.Keys + newSettings.Keys
    ensures o.store.Keys == st.store.Keys + newSettings.Keys
    ensures forall k :: k in newSettings ==> o.settings[k] == newSettings[k] && o.store[k] == newSettings[k]
    ensures forall k :: k in st.settings && k !in newSettings ==> o.settings[k] == st.settings[k]
    ensures forall k :: k in st.store && k !in newSettings ==> o.store[k] == st.store[k]
  {
    st.(settings := st.settings + newSettings, store := st.store + newSettings)
  }

  /** `toggleVoice()`: `voiceEnabled = !voiceEnabled`, stored and pushed. */
  function ToggleStep(st: State): (o: State)
    ensures "voiceEnabled" in o.settings
    ensures JsTruthy(o.settings["voiceEnabled"]) <==> !JsTruthy(Prop(Obj(st.settings), "voiceEnabled"))
    ensures forall k :: k in st.settings && k != "voiceEnabled" ==> k in o.settings && o.settings[k] == st.settings[k]
  {
    var v := Bool(!JsTruthy(Prop(Obj(st.settings), "voiceEnabled")));
    st.(settings := st.settings["voiceEnabled" := v], store := st.store["voiceEnabled" := v],
        pushes := st.pushes + [VoiceToggled(v)])
  }

  // ------------------------------------------------------------------ properties

  /** Delivering one message settles exactly the waiting requests whose
      handlers fire, each with the message's outcome, and leaves every other
      promise as it was (a settled one included). */
  lemma {:induction false} DeliverOutcome(rules: Rules, st: State, hs: seq<nat>, parsed: Option<Value>, q: nat)
    requires WellFormed(st) && (forall h :: h in hs ==> h < |st.requests|) && q < |st.requests|
    ensures Deliver(rules, st, hs, parsed).requests[q].promise ==
              if q in hs && Fires(rules.matching, parsed, st.requests[q].id)
              then Settle(st.requests[q].promise, Outcome(parsed)) else st.requests[q].promise
    decreases |hs|
  {
    if hs != [] {
      assert hs[0] in hs && forall h :: h in hs[1..] ==> h in hs;
      var st1 := Handle(rules, st, hs[0], parsed);
      DeliverOutcome(rules, st1, hs[1..], parsed, q);
      assert q in hs <==> q == hs[0] || q in hs[1..];
    }
  }

  /** A handler that fires removes itself from the current socket. */
  lemma {:induction false} DeliverUnregisters(rules: Rules, st: State, hs: seq<nat>, parsed: Option<Value>, q: nat)
    requires WellFormed(st) && (forall h :: h in hs ==> h < |st.requests|) && q < |st.requests|
    requires st.ws.Some? && q in hs && Fires(rules.matching, parsed, st.requests[q].id)
    ensures q !in Deliver(rules, st, hs, parsed).sockets[st.ws.value].handlers
    decreases |hs|
  {
    assert hs[0] in hs && forall h :: h in hs[1..] ==> h in hs;
    var st1 := Handle(rules, st, hs[0], parsed);
    if q == hs[0] {
      assert q !in st1.sockets[st.ws.value].handlers;
    } else {
      assert q in hs[1..];
      DeliverUnregisters(rules, st1, hs[1..], parsed, q);
    }
  }

  /** A message on socket s: a request whose handler is registered there
      settles with the message's outcome when its handler fires, and its
      handler is then gone from the current socket; every other promise is
      untouched. Whatever parses is forwarded to the window. */
  lemma MessageSettles(rules: Rules, st: State, s: nat, parsed: Option<Value>, q: nat)
    requires WellFormed(st) && s < |st.sockets| && q < |st.requests|
    ensures var o := MessageStep(rules, st, s, parsed);
            && o.requests[q].promise ==
                 (if q in st.sockets[s].handlers && Fires(rules.matching, parsed, st.requests[q].id)
                  then Settle(st.requests[q].promise, Outcome(parsed)) else st.requests[q].promise)
            && (st.ws == Some(s) && q in st.sockets[s].handlers && Fires(rules.matching, parsed, st.requests[q].id)
                ==> q !in o.sockets[s].handlers)
  {
    var st1 := if parsed.Some? then st.(pushes := st.pushes + [BackendMessage(parsed.value)]) else st;
    assert HandlersKnown(st.sockets[s], st.requests);
    DeliverOutcome(rules, st1, st.sockets[s].handlers, parsed, q);
    if st.ws == Some(s) && q in st.sockets[s].handlers && Fires(rules.matching, parsed, st.requests[q].id) {
      DeliverUnregisters(rules, st1, st.sockets[s].handlers, parsed, q);
    }
  }

  /** The backend's reply to a chat frame carries no id, so under either
      matching rule it resolves every request whose handler is registered on
      the socket, whichever message each of them sent. Every chat reply the
      backend sends is such a frame (IpcServer.RepliesAreBuilt). */
  lemma BackendChatReplySettlesEveryWaiter(rules: Rules, st: State, s: nat, q: nat,
                                           p: IpcServer.Processed, now: string)
    requires WellFormed(st) && s < |st.sockets| && q < |st.requests|
    ensures var reply := IpcServer.ChatReply(p, now);
            MessageStep(rules, st, s, Some(reply)).requests[q].promise ==
              if q in st.sockets[s].handlers then Settle(st.requests[q].promise, Resolved(reply))
              else st.requests[q].promise
  {
    var reply := IpcServer.ChatReply(p, now);
    assert Prop(reply, "type") == Str("chat_response") && "id" !in reply.fields;
    MessageSettles(rules, st, s, Some(reply), q);
  }

  /** The backend's reply to an action frame settles no waiting request:
      it has no id and its type is "action_result". */
  lemma BackendActionReplySettlesNothing(rules: Rules, st: State, s: nat, q: nat,
                                         action: Value, result: map<string, Value>, now: string)
    requires WellFormed(st) && s < |st.sockets| && q < |st.requests|
    ensures MessageStep(rules, st, s, Some(IpcServer.ActionReply(action, result, now))).requests[q] == st.requests[q]
  {
    var reply := IpcServer.ActionReply(action, result, now);
    assert "id" !in reply.fields;
    assert !Fires(rules.matching, Some(reply), st.requests[q].id);
    MessageSettles(rules, st, s, Some(reply), q);
    var o := MessageStep(rules, st, s, Some(reply));
    assert Extends(st.requests, o.requests);
  }

  /** `sendToPython` on a socket that is absent or not open rejects at once:
      nothing is sent, no handler is registered and no timer is started. */
  lemma SendRejectsWhenNotOpen(st: State, message: Value, now: nat, stamp: string)
    requires WellFormed(st) && !IsOpen(st)
    ensures var o := SendStep(st, message, now, stamp);
            && o.sockets == st.sockets && o.timers == st.timers
            && o.requests[|st.requests|] == Request(None, message, Rejected(NotConnected))
  {
  }

  /** On an open socket the envelope {id, type: 'chat', message, timestamp}
      is sent, the request's handler is registered on that socket, and its
      30-second timer runs. */
  lemma SendRegisters(st: State, message: Value, now: nat, stamp: string)
    requires WellFormed(st) && IsOpen(st)
    ensures var o := SendStep(st, message, now, stamp); var w := st.ws.value; var n := |st.requests|;
            && o.ws == st.ws
            && o.sockets[w].handlers == st.sockets[w].handlers + [n]
            && o.sockets[w].sent == st.sockets[w].sent + [Envelope(NatToString(now), message, stamp)]
            && o.requests[n] == Request(Some(NatToString(now)), message, Pending)
            && o.timers == st.timers + [Timer(30000, RequestTimeout(n))]
  {
  }

  /** A send followed by a chat_response on the same socket resolves that
      request with the reply and unregisters its handler. */
  lemma SendThenReply(rules: Rules, st: State, message: Value, now: nat, stamp: string, reply: Value)
    requires WellFormed(st) && IsOpen(st)
    requires reply != Null && Prop(reply, "type") == Str("chat_response")
    ensures var o := SendStep(st, message, now, stamp); var w := st.ws.value; var n := |st.requests|;
            var m := MessageStep(rules, o, w, Some(reply));
            m.requests[n].promise == Resolved(reply) && n !in m.sockets[w].handlers
  {
    var o := SendStep(st, message, now, stamp);
    SendRegisters(st, message, now, stamp);
    MessageSettles(rules, o, st.ws.value, Some(reply), |st.requests|);
  }

  /** Timer k of request r firing: r is rejected with 'Request timeout'
      unless it already settled, nothing else settles, and r's handler is
      removed from the current socket only where the entry point does so. */
  lemma TimeoutStep(rules: Rules, st: State, k: nat, env: Env)
    requires WellFormed(st) && k < |st.timers| && st.timers[k].job.RequestTimeout?
    ensures var r := st.timers[k].job.request; var o := FireStep(rules, st, k, env);
            && r < |st.requests|
            && o.requests[r].promise == Settle(st.requests[r].promise, Rejected(Timeout))
            && (forall q :: 0 <= q < |st.requests| && q != r ==> o.requests[q] == st.requests[q])
            && o.ws == st.ws
            && (rules.timeoutUnregisters && st.ws.Some? ==>
                  forall h :: h in o.sockets[st.ws.value].handlers <==> h in st.sockets[st.ws.value].handlers && h != r)
            && (!rules.timeoutUnregisters ==> o.sockets == st.sockets)
  {
    assert st.timers[k] in st.timers;
  }

  /** A send whose timer fires before any reply is rejected with 'Request
      timeout'. */
  lemma SendThenTimeout(rules: Rules, st: State, message: Value, now: nat, stamp: string, env: Env)
    requires WellFormed(st) && IsOpen(st)
    ensures var o := SendStep(st, message, now, stamp); var n := |st.requests|;
            FireStep(rules, o, |o.timers| - 1, env).requests[n].promise == Rejected(Timeout)
  {
    var o := SendStep(st, message, now, stamp);
    SendRegisters(st, message, now, stamp);
    TimeoutStep(rules, o, |o.timers| - 1, env);
  }

  /** A reconnect timer dials a new socket, unless the app is quitting. */
  lemma ReconnectUnlessQuitting(rules: Rules, st: State, k: nat, env: Env)
    requires WellFormed(st) && k < |st.timers| && st.timers[k].job == Reconnect
    ensures var o := FireStep(rules, st, k, env);
            && o.requests == st.requests
            && (st.quitting ==> o.sockets == st.sockets && o.ws == st.ws)
            && (!st.quitting ==> o.sockets == st.sockets + [Socket(Url(rules, st), Connecting, [], [])]
                                 && o.ws == Some(|st.sockets|))
  {
    assert Url(rules, st.(timers := RemoveAt(st.timers, k))) == Url(rules, st);
  }

  /** A 'close' event pushes a not-connected status and, 5000 ms later,
      dials again exactly when the app is not quitting. */
  lemma CloseThenReconnect(rules: Rules, st: State, s: nat, env: Env)
    requires WellFormed(st) && s < |st.sockets|
    ensures var c := CloseStep(rules, st, s);
            && c.timers[|c.timers| - 1] == Timer(5000, Reconnect)
            && c.pushes[|c.pushes| - 1] == BackendStatus(Status(Bool(false), Running(st), PortField(rules, st)))
            && |FireStep(rules, c, |c.timers| - 1, env).sockets| == |st.sockets| + (if st.quitting then 0 else 1)
  {
    var c := CloseStep(rules, st, s);
    ReconnectUnlessQuitting(rules, c, |c.timers| - 1, env);
  }

  /** After 'before-quit' no reconnect timer dials again. */
  lemma NoReconnectAfterQuit(rules: Rules, st: State, k: nat, env: Env)
    requires WellFormed(st) && k < |st.timers| && st.timers[k].job == Reconnect
    ensures var q := QuitStep(st);
            FireStep(rules, q, k, env).sockets == q.sockets
  {
    ReconnectUnlessQuitting(rules, QuitStep(st), k, env);
  }

  /** Two `toggleVoice` calls restore a boolean `voiceEnabled`. */
  lemma ToggleTwiceRestores(st: State)
    requires "voiceEnabled" in st.settings && st.settings["voiceEnabled"].Bool?
    ensures ToggleStep(ToggleStep(st)).settings == st.settings
  {
    var t := ToggleStep(ToggleStep(st));
    assert t.settings["voiceEnabled"] == st.settings["voiceEnabled"];
    assert t.settings.Keys == st.settings.Keys;
  }

  // ------------------------------------------------------------------ objects

  /** A JavaScript settings object, which `Object.assign` changes in place. */
  class SettingsObject {
    var fields: map<string, Value>

    constructor(fields: map<string, Value>)
      ensures this.fields == fields
    {
      this.fields := fields;
    }
  }

  /** The supervisor's variables: the fields of `JarvisApp` in main.js, the
      module-level `let` variables of main-working.js and main-fixed.js. */
  class App {
    const rules: Rules
    var sockets: seq<Socket>
    var ws: Option<nat>
    var requests: seq<Request>
    var timers: seq<Timer>
    var pushes: seq<Push>
    var pythonProcess: Option<Process>
    var isQuitting: bool
    var currentPort: Option<int>
    var settings: SettingsObject
    var store: map<string, Value>

    function Snap(): State
      reads this, settings
    {
      State(sockets, ws, requests, timers, pushes, pythonProcess, isQuitting, currentPort, settings.fields, store)
    }

    predicate Valid()
      reads this, settings
    {
      WellFormed(Snap()) && NoRequestHangs(Snap())
    }

    constructor(rules: Rules, store: map<string, Value>)
      ensures this.rules == rules && Valid() && Snap() == Initial(rules, store)
    {
      this.rules := rules;
      sockets, ws, requests, timers, pushes := [], None, [], [], [];
      pythonProcess, isQuitting, currentPort := None, false, Some(8000);
      settings := new SettingsObject(InitialSettings(rules, store));
      this.store := store;
    }

    /** `connectWebSocket()`. */
    method ConnectWebSocket()
      requires WellFormed(Snap())
      modifies this
      ensures Snap() == ConnectStep(rules, old(Snap()))
    {
      var url := Url(rules, Snap());
      ws := Some(|sockets|);
      sockets := sockets + [Socket(url, Connecting, [], [])];
    }

    /** Start the backend, then connect (at once when the script is missing,
        after the start-up wait otherwise). */
    method StartBackend(scriptExists: bool)
      requires WellFormed(Snap())
      modifies this
      ensures Snap() == StartAndConnect(rules, old(Snap()), scriptExists)
    {
      if !scriptExists {
        ConnectWebSocket();
      } else {
        pythonProcess := Some(Process(false));
        timers := timers + [Timer(3000, Connect)];
      }
    }

    /** The app becoming ready (`init()` in main.js, `app.whenReady()` in the
        other two). */
    method WhenReady(scriptExists: bool)
      requires Valid()
      modifies this
      ensures Snap() == ReadyStep(rules, old(Snap()), scriptExists)
      ensures Valid()
    {
      match rules.startup
      case StartThenConnect => StartBackend(scriptExists);
      case DeferredStartThenConnect => timers := timers + [Timer(1000, DeferredStart)];
      case StartThenGatedConnect =>
        if scriptExists {
          pythonProcess := Some(Process(false));
          timers := timers + [Timer(5000, Warmup)];
        }
    }

    method OnOpen(s: nat)
      requires Valid() && s < |sockets|
      modifies this
      ensures Snap() == OpenStep(rules, old(Snap()), s)
      ensures Valid()
    {
      var field := PortField(rules, Snap());
      sockets := sockets[s := sockets[s].(state := Open)];
      pushes := pushes + [BackendStatus(Status(Bool(true), Bool(true), field))];
    }

    /** Request r's response handler. */
    method HandleMessage(r: nat, parsed: Option<Value>)
      requires WellFormed(Snap()) && r < |requests|
      modifies this
      ensures Snap() == Handle(rules, old(Snap()), r, parsed)
    {
      if Fires(rules.matching, parsed, requests[r].id) {
        if ws.Some? {
          var w := ws.value;
          sockets := sockets[w := sockets[w].(handlers := RemoveAll(sockets[w].handlers, r))];
        }
        if rules.settleClearsTimeout {
          timers := WithoutTimeout(timers, r);
        }
        requests := requests[r := requests[r].(promise := Settle(requests[r].promise, Outcome(parsed)))];
      }
    }

    /** A 'message' event on socket s carrying `data`. */
    method OnMessage(s: nat, data: string, loads: string -> Option<Value>)
      requires Valid() && s < |sockets|
      modifies this
      ensures Snap() == MessageStep(rules, old(Snap()), s, loads(data))
      ensures Valid()
    {
      var parsed := loads(data);
      var hs := sockets[s].handlers;
      assert HandlersKnown(sockets[s], requests);
      if parsed.Some? {
        pushes := pushes + [BackendMessage(parsed.value)];
      }
      var i := 0;
      assert hs[0..] == hs;
      while i < |hs|
        invariant 0 <= i <= |hs|
        invariant WellFormed(Snap()) && |requests| == |old(requests)|
        invariant forall h :: h in hs ==> h < |requests|
        invariant forall h :: h in hs[i..] ==> h in hs
        invariant Deliver(rules, Snap(), hs[i..], parsed) == MessageStep(rules, old(Snap()), s, parsed)
      {
        assert hs[i] in hs && hs[i..][1..] == hs[i + 1..];
        HandleMessage(hs[i], parsed);
        i := i + 1;
      }
    }

    method OnClose(s: nat)
      requires Valid() && s < |sockets|
      modifies this
      ensures Snap() == CloseStep(rules, old(Snap()), s)
      ensures Valid()
    {
      var status := Status(Bool(false), Running(Snap()), PortField(rules, Snap()));
      sockets := sockets[s := sockets[s].(state := Closed)];
      pushes := pushes + [BackendStatus(status)];
      timers := timers + [Timer(5000, Reconnect)];
    }

    method OnError()
      requires Valid()
      modifies this
      ensures Snap() == ErrorStep(rules, old(Snap()))
      ensures Valid()
    {
      if rules.errorReconnects {
        timers := timers + [Timer(2000, Reconnect)];
      }
    }

    /** `sendToPython(message)`; the result is the request whose promise
        the caller awaits. */
    method SendToPython(message: Value, now: nat, stamp: string) returns (r: nat)
      requires Valid()
      modifies this
      ensures Snap() == SendStep(old(Snap()), message, now, stamp)
      ensures Valid() && r == |old(requests)| && r < |requests|
    {
      r := |requests|;
      if !(ws.Some? && ws.value < |sockets| && sockets[ws.value].state == Open) {
        requests := requests + [Request(None, message, Rejected(NotConnected))];
        return;
      }
      var id := NatToString(now);
      var w := ws.value;
      var sock := sockets[w];
      var listening := sock.(handlers := sock.handlers + [r]);              // ws.on('message', ...)
      var sending := listening.(sent := listening.sent + [Envelope(id, message, stamp)]);  // ws.send(...)
      requests := requests + [Request(Some(id), message, Pending)];
      sockets := sockets[w := sending];
      timers := timers + [Timer(30000, RequestTimeout(r))];
    }

    /** The timeout of request r: `ws.off` where the entry point calls it,
        then `reject(new Error('Request timeout'))`. */
    method ExpireRequest(r: nat)
      requires WellFormed(Snap()) && r < |requests|
      modifies this
      ensures Snap() == ExpireStep(rules, old(Snap()), r)
    {
      if rules.timeoutUnregisters && ws.Some? {
        var w := ws.value;
        sockets := sockets[w := sockets[w].(handlers := RemoveAll(sockets[w].handlers, r))];
      }
      requests := requests[r := requests[r].(promise := Settle(requests[r].promise, Rejected(Timeout)))];
    }

    method FireTimer(k: nat, env: Env)
      requires Valid() && k < |timers|
      modifies this
      ensures Snap() == FireStep(rules, old(Snap()), k, env)
      ensures Valid()
    {
      ghost var s0 := Snap();
      var t := timers[k];
      assert t in timers;
      timers := RemoveAt(timers, k);
      DropTimerWellFormed(s0, k);
      RunTimerJob(t.job, env);
    }

    /** The callback of a timer that has already left the timer list. */
    method RunTimerJob(job: Job, env: Env)
      requires WellFormed(Snap()) && (job.RequestTimeout? ==> job.request < |requests|)
      modifies this
      ensures Snap() == RunJob(rules, old(Snap()), job, env)
    {
      match job
      case Reconnect =>
        if !isQuitting {
          ConnectWebSocket();
        }
      case Connect => ConnectWebSocket();
      case RequestTimeout(r) => ExpireRequest(r);
      case DeferredStart => StartBackend(env.scriptExists);
      case Warmup => EndWarmup(env.portFile);
    }

    /** The end of the start-up wait of main-working.js. */
    method EndWarmup(portFile: Option<string>)
      requires WellFormed(Snap())
      modifies this
      ensures Snap() == WarmupStep(old(Snap()), portFile)
    {
      currentPort, timers := if portFile.Some? then JsParseInt(Strip(JavaScript, portFile.value)) else currentPort,
                             timers + [Timer(2000, Connect)];
    }

    method OnStdout(portMatch: Option<string>)
      requires Valid()
      modifies this
      ensures Snap() == StdoutStep(rules, old(Snap()), portMatch)
      ensures Valid()
    {
      currentPort := if rules.settingsPort.None? && portMatch.Some? then JsParseInt(portMatch.value) else currentPort;
    }

    method OnProcessExit()
      requires Valid()
      modifies this
      ensures Snap() == ExitStep(old(Snap()))
      ensures Valid()
    {
      pushes := pushes + [BackendStatus(Status(Bool(false), Bool(false), None))];
    }

    method GetBackendStatus() returns (status: Status)
      requires Valid()
      ensures JsTruthy(status.connected) <==> IsOpen(Snap())
      ensures status == StatusOf(rules, Snap())
    {
      var connected := if ws.None? then Null else Bool(sockets[ws.value].state == Open);
      status := Status(connected, Running(Snap()), PortField(rules, Snap()));
    }

    method GetSettings() returns (r: SettingsObject)
      ensures r == settings
    {
      r := settings;
    }

    /** `save-settings`: a new merged object (main.js) or `Object.assign` on
        the shared one; the result is the settings object afterwards. */
    method SaveSettings(newSettings: map<string, Value>) returns (r: SettingsObject)
      requires Valid()
      modifies this, settings
      ensures Valid() && r == settings && Snap() == SaveStep(old(Snap()), newSettings)
      ensures rules.mergeInPlace ==> settings == old(settings)
      ensures !rules.mergeInPlace ==> fresh(settings) && old(settings).fields == old(settings.fields)
    {
      if rules.mergeInPlace {
        settings.fields := settings.fields + newSettings;
      } else {
        settings := new SettingsObject(settings.fields + newSettings);
      }
      store := store + newSettings;
      r := settings;
    }

    method ToggleVoice()
      requires Valid()
      modifies this, settings
      ensures Valid() && settings == old(settings) && Snap() == ToggleStep(old(Snap()))
    {
      var v := Bool(!JsTruthy(Prop(Obj(settings.fields), "voiceEnabled")));
      settings.fields := settings.fields["voiceEnabled" := v];
      store := store["voiceEnabled" := v];
      pushes := pushes + [VoiceToggled(v)];
    }

    /** 'before-quit' (also reached from the tray's Quit item). */
    method BeforeQuit()
      requires Valid()
      modifies this
      ensures Snap() == QuitStep(old(Snap()))
      ensures Valid()
    {
      isQuitting := true;
      if ws.Some? && sockets[ws.value].state in {Connecting, Open} {
        sockets := sockets[ws.value := sockets[ws.value].(state := Closing)];
      }
      if pythonProcess.Some? {
        pythonProcess := Some(Process(true));
      }
    }
  }
}
