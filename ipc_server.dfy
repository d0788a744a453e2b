/** The backend server (ipc_server.py): the WebSocket `ConnectionManager`,
    the per-message reply dispatch of the `/ws` endpoint, and the `/chat`
    envelopes. Sockets are numbered; a send that raises is given by
    `fails`. The language model, JSON decoding, regex search and task
    handlers are the oracles of the modules they belong to, gathered in a
    `Backend` value. */
module IpcServer {
  import opened Common
  import LlmInterface
  import IntentParser
  import TaskRouter

  /** `list.remove(x)`: drops the first occurrence, if any. */
  function RemoveFirst(s: seq<nat>, x: nat): (r: seq<nat>)
    ensures x !in s ==> r == s
    ensures x in s ==> |r| == |s| - 1 && multiset(r) == multiset(s) - multiset{x}
  {
    if s == [] then []
    else if s[0] == x then
      assert s == [s[0]] + s[1..];
      s[1..]
    else
      assert s == [s[0]] + s[1..];
      [s[0]] + RemoveFirst(s[1..], x)
  }

  /** The connections of s whose send did not fail, in order. */
  function Without(s: seq<nat>, fails: nat -> bool): (r: seq<nat>)
    ensures |r| <= |s|
  {
    if s == [] then [] else (if fails(s[0]) then [] else [s[0]]) + Without(s[1..], fails)
  }

  lemma {:induction false} WithoutMembers(s: seq<nat>, fails: nat -> bool, c: nat)
    ensures c in Without(s, fails) <==> c in s && !fails(c)
  {
    if s != [] {
      WithoutMembers(s[1..], fails, c);
      assert s == [s[0]] + s[1..];
    }
  }

  // --------------------------------------------------------------- broadcast

  datatype BroadcastRun = BroadcastRun(remaining: seq<nat>, attempted: seq<nat>)

  /** `broadcast` as written: a `for` loop over the live list, which
      `disconnect` shrinks under the iterator. The iterator's position is i;
      a removal shifts the next connection into the slot already passed. */
  function BroadcastFrom(conns: seq<nat>, i: nat, fails: nat -> bool): (r: BroadcastRun)
    ensures |r.attempted| <= |conns| - i || i > |conns|
    ensures |r.remaining| <= |conns|
    ensures forall c :: c !in conns ==> c !in r.attempted && c !in r.remaining
    decreases |conns| - i
  {
    if i >= |conns| then BroadcastRun(conns, [])
    else
      var c := conns[i];
      var next := if fails(c) then RemoveFirst(conns, c) else conns;
      assert forall d :: d !in conns ==> d !in next by {
        forall d | d !in conns ensures d !in next {
          if fails(c) {
            assert c in conns;
            assert multiset(next)[d] == multiset(conns)[d] - multiset{c}[d] == 0;
          }
        }
      }
      var rest := BroadcastFrom(next, i + 1, fails);
      BroadcastRun(rest.remaining, [c] + rest.attempted)
  }

  lemma BroadcastStep(conns: seq<nat>, i: nat, fails: nat -> bool)
    requires i < |conns|
    ensures var c := conns[i];
            var rest := BroadcastFrom(if fails(c) then RemoveFirst(conns, c) else conns, i + 1, fails);
            BroadcastFrom(conns, i, fails) == BroadcastRun(rest.remaining, [c] + rest.attempted)
  {
  }

  /** One send of the loop as written, seen from a prefix of sends already
      made: the outcome of the whole run does not change. */
  lemma BroadcastAdvance(conns: seq<nat>, i: nat, fails: nat -> bool, done: seq<nat>)
    requires i < |conns|
    ensures var c := conns[i];
            var rest := BroadcastFrom(if fails(c) then RemoveFirst(conns, c) else conns, i + 1, fails);
            && rest.remaining == BroadcastFrom(conns, i, fails).remaining
            && (done + [c]) + rest.attempted == done + BroadcastFrom(conns, i, fails).attempted
  {
    var c := conns[i];
    var rest := BroadcastFrom(if fails(c) then RemoveFirst(conns, c) else conns, i + 1, fails);
    BroadcastStep(conns, i, fails);
    assert done + ([c] + rest.attempted) == (done + [c]) + rest.attempted;
  }

  /** Two connections, the first failing: the second is never sent to. */
  lemma BroadcastSkipsAfterFailure()
    ensures var fails := (c: nat) => c == 1;
            BroadcastFrom([1, 2], 0, fails) == BroadcastRun([2], [1])
  {
    var fails := (c: nat) => c == 1;
    assert RemoveFirst([1, 2], 1) == [2];
    assert BroadcastFrom([2], 1, fails) == BroadcastRun([2], []);
  }

  /** `broadcast` with the evident intent: every connection is sent to, and
      those whose send raised are dropped. */
  function BroadcastIntended(conns: seq<nat>, fails: nat -> bool): (r: BroadcastRun)
    ensures r.attempted == conns && |r.remaining| <= |conns|
  {
    BroadcastRun(Without(conns, fails), conns)
  }

  /** The intended broadcast sends to every connection and keeps exactly
      those whose send succeeded. */
  lemma BroadcastIntendedCorrect(conns: seq<nat>, fails: nat -> bool, c: nat)
    ensures var run := BroadcastIntended(conns, fails);
            (c in conns ==> c in run.attempted)
            && (c in run.remaining <==> c in conns && !fails(c))
  {
    WithoutMembers(conns, fails, c);
  }

  class ConnectionManager {
    var activeConnections: seq<nat>

    constructor ()
      ensures activeConnections == []
    {
      activeConnections := [];
    }

    method Connect(ws: nat)
      modifies this
      ensures activeConnections == old(activeConnections) + [ws]
    {
      activeConnections := activeConnections + [ws];
    }

    method Disconnect(ws: nat)
      modifies this
      ensures activeConnections == RemoveFirst(old(activeConnections), ws)
    {
      if ws in activeConnections {
        activeConnections := RemoveFirst(activeConnections, ws);
      }
    }

    /** The iteration as written; `attempted` lists the sends in order. */
    method BroadcastAsWritten(fails: nat -> bool) returns (attempted: seq<nat>)
      modifies this
      ensures BroadcastRun(activeConnections, attempted) == BroadcastFrom(old(activeConnections), 0, fails)
    {
      var conns := activeConnections;
      ghost var goal := BroadcastFrom(conns, 0, fails);
      attempted := [];
      var i := 0;
      while i < |conns|
        invariant BroadcastFrom(conns, i, fails).remaining == goal.remaining
        invariant attempted + BroadcastFrom(conns, i, fails).attempted == goal.attempted
        decreases |conns| - i
      {
        var c := conns[i];
        var next := if fails(c) then RemoveFirst(conns, c) else conns;
        BroadcastAdvance(conns, i, fails, attempted);
        conns := next;
        attempted := attempted + [c];
        i := i + 1;
      }
      assert BroadcastFrom(conns, i, fails) == BroadcastRun(conns, []);
      assert attempted + [] == attempted;
      activeConnections := conns;
    }

    /** The intended broadcast: every connection present at the start is
      sent to, and exactly the failing ones are removed. */
    method Broadcast(fails: nat -> bool) returns (attempted: seq<nat>)
      modifies this
      ensures BroadcastRun(activeConnections, attempted) == BroadcastIntended(old(activeConnections), fails)
    {
      var snapshot := activeConnections;
      var kept: seq<nat> := [];
      attempted := [];
      var i := 0;
      while i < |snapshot|
        invariant 0 <= i <= |snapshot|
        invariant attempted == snapshot[..i]
        invariant kept + Without(snapshot[i..], fails) == Without(snapshot, fails)
      {
        var c := snapshot[i];
        var later := Without(snapshot[i + 1..], fails);
        assert snapshot[i..][0] == c && snapshot[i..][1..] == snapshot[i + 1..];
        assert Without(snapshot[i..], fails) == (if fails(c) then [] else [c]) + later;
        assert snapshot[..i + 1] == snapshot[..i] + [c];
        attempted := attempted + [c];
        if !fails(c) {
          assert kept + ([c] + later) == (kept + [c]) + later;
          kept := kept + [c];
        } else {
          assert [] + later == later;
        }
        i := i + 1;
      }
      assert snapshot[..i] == snapshot;
      activeConnections := kept;
    }
  }

  // ------------------------------------------------------- message handling

  /** The oracles the request pipeline calls. */
  datatype Backend = Backend(
    generate: Value -> Option<string>,
    loads: string -> Option<Value>,
    search: IntentParser.Search,
    stamp: string,
    call: TaskRouter.Handlers,
    repr: Value -> string)

  datatype Processed = Processed(intent: IntentParser.Intent, actionResult: Value)

  /** generate_response, parse_intent, and execute_action when the intent
      names an action. parse_intent's exceptions propagate. */
  function Process(b: Backend, message: Value): (r: Result<Processed>)
    ensures r.Ok? && !PyTruthy(r.value.intent.action) ==> r.value.actionResult == Null
    ensures r.Ok? && PyTruthy(r.value.intent.action) ==>
      r.value.actionResult == Obj(TaskRouter.ExecuteAction(b.call, b.repr, r.value.intent.action, r.value.intent.params))
  {
    var llm := LlmInterface.GenerateResponse(b.generate, b.loads, message);
    match IntentParser.ParseIntent(b.search, b.stamp, IntentParser.Dict(llm))
    case Raised(e) => Raised(e)
    case Ok(intent) =>
      var result := if PyTruthy(intent.action)
        then Obj(TaskRouter.ExecuteAction(b.call, b.repr, intent.action, intent.params))
        else Null;
      Ok(Processed(intent, result))
  }

  /** The `data` of a chat reply; the intent always carries `response`, so
      'I processed your request.' is never used. */
  function ChatData(p: Processed, now: string): map<string, Value> {
    map["response" := p.intent.response, "action_executed" := p.intent.action,
        "action_result" := p.actionResult, "timestamp" := Str(now)]
  }

  /** The `chat_response` frame sent back for a processed chat message. */
  function ChatReply(p: Processed, now: string): (r: Value)
    ensures r.Obj? && r.fields.Keys == {"type", "data"} && r.fields["type"] == Str("chat_response")
    ensures r.fields["data"].Obj?
    ensures r.fields["data"].fields.Keys == {"response", "action_executed", "action_result", "timestamp"}
  {
    Obj(map["type" := Str("chat_response"), "data" := Obj(ChatData(p, now))])
  }

  /** The `action_result` frame: the router's envelope nested under `result`. */
  function ActionReply(action: Value, result: map<string, Value>, now: string): (r: Value)
    ensures r.Obj? && r.fields.Keys == {"type", "data"} && r.fields["type"] == Str("action_result")
    ensures r.fields["data"].Obj? && r.fields["data"].fields.Keys == {"action", "result", "timestamp"}
    ensures r.fields["data"].fields["result"] == Obj(result)
  {
    Obj(map["type" := Str("action_result"),
            "data" := Obj(map["action" := action, "result" := Obj(result), "timestamp" := Str(now)])])
  }

  /** What one received frame leads to. */
  datatype Step = Reply(message: Value) | NoReply | Drop

  /** One iteration of the `/ws` receive loop. A frame that is not JSON, is
      not an object, or whose processing raises ends the session. */
  function WsStep(b: Backend, frame: string, now: string): (r: Step)
    ensures b.loads(frame).None? ==> r == Drop
    ensures b.loads(frame).Some? && !b.loads(frame).value.Obj? ==> r == Drop
    ensures r.Reply? ==>
      && r.message.Obj? && r.message.fields.Keys == {"type", "data"}
      && b.loads(frame).Some? && b.loads(frame).value.Obj?
      && var m := b.loads(frame).value.fields;
         (r.message.fields["type"] == Str("chat_response") <==> PyGet(m, "type", Null) == Str("chat"))
    ensures b.loads(frame).Some? && b.loads(frame).value.Obj? ==>
      var m := b.loads(frame).value.fields;
      (PyGet(m, "type", Null) != Str("chat") && PyGet(m, "type", Null) != Str("action") ==> r == NoReply)
  {
    match b.loads(frame)
    case None => Drop
    case Some(v) =>
      if !v.Obj? then Drop
      else
        var m := v.fields;
        var kind := PyGet(m, "type", Null);
        if kind == Str("chat") then
          match Process(b, PyGet(m, "message", Str("")))
          case Raised(_) => Drop
          case Ok(p) => Reply(ChatReply(p, now))
        else if kind == Str("action") then
          var action := PyGet(m, "action", Null);
          Reply(ActionReply(action, TaskRouter.ExecuteAction(b.call, b.repr, action, PyGet(m, "params", Obj(map[]))), now))
        else NoReply
  }

  /** A chat reply's data holds the intent's response and no "id": the
      frontend cannot match it to its request by id. */
  lemma ChatReplyHasNoId(b: Backend, frame: string, now: string, m: Value)
    requires WsStep(b, frame, now) == Reply(m)
    requires m.fields["type"] == Str("chat_response")
    ensures "id" !in m.fields && m.fields["data"].Obj?
            && m.fields["data"].fields.Keys == {"response", "action_executed", "action_result", "timestamp"}
  {
  }

  /** Every reply a session sends is built by ChatReply from a processed
      message or by ActionReply from the router's envelope. */
  lemma RepliesAreBuilt(b: Backend, frame: string, now: string, m: Value)
    requires WsStep(b, frame, now) == Reply(m)
    ensures m.fields["type"] == Str("chat_response") ==> exists p :: m == ChatReply(p, now)
    ensures m.fields["type"] != Str("chat_response") ==>
              exists action, result :: m == ActionReply(action, result, now)
  {
    var v := b.loads(frame).value;
    var kind := PyGet(v.fields, "type", Null);
    if kind == Str("chat") {
      var p := Process(b, PyGet(v.fields, "message", Str(""))).value;
      assert m == ChatReply(p, now);
    } else {
      var action := PyGet(v.fields, "action", Null);
      var result := TaskRouter.ExecuteAction(b.call, b.repr, action, PyGet(v.fields, "params", Obj(map[])));
      assert m == ActionReply(action, result, now);
    }
  }

  /** An action reply nests the router's envelope under `result`, beside
      the action and the time. */
  lemma ActionReplyNestsResult(b: Backend, frame: string, now: string, m: Value)
    requires WsStep(b, frame, now) == Reply(m)
    requires m.fields["type"] == Str("action_result")
    ensures "id" !in m.fields && m.fields["data"].Obj?
            && m.fields["data"].fields.Keys == {"action", "result", "timestamp"}
            && m.fields["data"].fields["result"].Obj?
  {
  }

  /** The replies a session sends for a sequence of frames, up to the
      frame that ends it. */
  function SessionReplies(b: Backend, frames: seq<string>, now: string): (r: seq<Value>)
    ensures |r| <= |frames|
    ensures forall k :: 0 <= k < |r| ==> r[k].Obj? && r[k].fields.Keys == {"type", "data"}
  {
    if frames == [] then []
    else
      var s := WsStep(b, frames[0], now);
      if s.Drop? then []
      else if s.NoReply? then SessionReplies(b, frames[1..], now)
      else [s.message] + SessionReplies(b, frames[1..], now)
  }

  /** `websocket_endpoint`: the socket is connected, each frame handled in
      turn, and the socket disconnected when a frame fails or the client
      goes away (end of `frames`). */
  method WebSocketSession(mgr: ConnectionManager, ws: nat, b: Backend, frames: seq<string>, now: string)
    returns (sent: seq<Value>)
    modifies mgr
    ensures sent == SessionReplies(b, frames, now)
    ensures mgr.activeConnections == RemoveFirst(old(mgr.activeConnections) + [ws], ws)
  {
    mgr.Connect(ws);
    sent := [];
    var i := 0;
    while i < |frames|
      invariant 0 <= i <= |frames|
      invariant mgr.activeConnections == old(mgr.activeConnections) + [ws]
      invariant sent + SessionReplies(b, frames[i..], now) == SessionReplies(b, frames, now)
    {
      var step := WsStep(b, frames[i], now);
      assert frames[i..][0] == frames[i] && frames[i..][1..] == frames[i + 1..];
      if step.Drop? {
        break;
      }
      if step.Reply? {
        sent := sent + [step.message];
      }
      i := i + 1;
    }
    mgr.Disconnect(ws);
  }

  // ------------------------------------------------------------------- /chat

  const ChatApology := "I'm sorry, I encountered an error processing your request."

  /** The `/chat` response: success with the intent's response, or an error
      envelope with the fixed apology when processing raised. */
  function ChatResponse(b: Backend, message: string, now: string): (r: map<string, Value>)
    ensures "success" in r && "response" in r
    ensures Process(b, Str(message)).Raised? <==> r["success"] == Bool(false)
    ensures Process(b, Str(message)).Raised? ==> r["response"] == Str(ChatApology) && "error" in r
    ensures Process(b, Str(message)).Ok? ==> r["response"] == Process(b, Str(message)).value.intent.response
  {
    match Process(b, Str(message))
    case Raised(e) =>
      map["success" := Bool(false), "error" := Str(e), "response" := Str(ChatApology), "timestamp" := Str(now)]
    case Ok(p) => ChatData(p, now)["success" := Bool(true)]
  }

  /** `chat_endpoint`: the response, broadcast to every WebSocket client on
      success by the broadcast of the given build. */
  method ChatEndpoint(mgr: ConnectionManager, b: Backend, message: string, now: string, fails: nat -> bool, build: Build)
    returns (response: map<string, Value>, attempted: seq<nat>)
    modifies mgr
    ensures response == ChatResponse(b, message, now)
    ensures response["success"] == Bool(true) && build.AsWritten? ==>
      BroadcastRun(mgr.activeConnections, attempted) == BroadcastFrom(old(mgr.activeConnections), 0, fails)
    ensures response["success"] == Bool(true) && build.Corrected? ==>
      BroadcastRun(mgr.activeConnections, attempted) == BroadcastIntended(old(mgr.activeConnections), fails)
    ensures response["success"] == Bool(false) ==> mgr.activeConnections == old(mgr.activeConnections) && attempted == []
  {
    response := ChatResponse(b, message, now);
    attempted := [];
    if response["success"] == Bool(true) {
      if build.AsWritten? {
        attempted := mgr.BroadcastAsWritten(fails);
      } else {
        attempted := mgr.Broadcast(fails);
      }
    }
  }
}
