/** main.js: the `JarvisApp` supervisor.
    - A reply settles a request when it carries the request's id or has type
      'chat_response'.
    - The request timeout unregisters the handler; only 'close' reconnects.
    - The socket dials `settings.pythonPort` (8000 by default).
    - `init` connects even when the backend script is missing.
    - `save-settings` builds a new settings object. */
module MainApp {
  import opened Common
  import opened Supervisor

  const MainRules := Supervisor.Rules(IdOrType, true, false, false, Some(8000), false, StartThenConnect, false)

  /** A reply with the request's id settles it even when its type is not
      'chat_response', and the handler leaves the current socket. */
  lemma IdMatchSettles(st: State, s: nat, q: nat, reply: Value)
    requires WellFormed(st) && s < |st.sockets| && q < |st.requests|
    requires st.ws == Some(s) && q in st.sockets[s].handlers && st.requests[q].id.Some?
    requires reply.Obj? && Prop(reply, "id") == Str(st.requests[q].id.value)
    ensures var o := MessageStep(MainRules, st, s, Some(reply));
            && o.requests[q].promise == Settle(st.requests[q].promise, Resolved(reply))
            && q !in o.sockets[s].handlers
  {
    MessageSettles(MainRules, st, s, Some(reply), q);
  }

  /** A line that does not parse rejects every waiting request on the socket
      and removes its handlers from the current socket. */
  lemma UnreadableMessageRejects(st: State, s: nat, q: nat)
    requires WellFormed(st) && s < |st.sockets| && q < |st.requests|
    requires st.ws == Some(s) && q in st.sockets[s].handlers
    ensures var o := MessageStep(MainRules, st, s, None);
            && o.requests[q].promise == Settle(st.requests[q].promise, Rejected(BadMessage))
            && q !in o.sockets[s].handlers
  {
    MessageSettles(MainRules, st, s, None, q);
  }

  /** The timeout removes the handler from the current socket and rejects
      with 'Request timeout'; on an already settled request it changes no
      promise. */
  lemma TimeoutUnregisters(st: State, k: nat, env: Env)
    requires WellFormed(st) && k < |st.timers| && st.timers[k].job.RequestTimeout? && st.ws.Some?
    ensures var r := st.timers[k].job.request; var o := FireStep(MainRules, st, k, env);
            && r < |st.requests|
            && r !in o.sockets[st.ws.value].handlers
            && o.requests[r].promise == Settle(st.requests[r].promise, Rejected(Timeout))
            && (!st.requests[r].promise.Pending? ==> o.requests == st.requests)
  {
    TimeoutStep(MainRules, st, k, env);
    var r := st.timers[k].job.request;
    var o := FireStep(MainRules, st, k, env);
    if !st.requests[r].promise.Pending? {
      assert |o.requests| == |st.requests|;
      assert forall q :: 0 <= q < |st.requests| ==> o.requests[q] == st.requests[q];
    }
  }

  /** An 'error' event schedules nothing: only 'close' reconnects. */
  lemma ErrorDoesNotReconnect(st: State)
    requires WellFormed(st)
    ensures ErrorStep(MainRules, st) == st
  {
  }

  /** Start-up without the backend script dials port 8000 at once (with no
      stored port); with the script, it spawns the process and dials only
      when the 3000 ms wait is over. */
  lemma StartupConnects(store: map<string, Value>, env: Env)
    requires "pythonPort" !in store
    ensures var st := Initial(MainRules, store); var o := ReadyStep(MainRules, st, false);
            && o.sockets == [Socket("ws://127.0.0.1:" + IntToString(8000) + "/ws", Connecting, [], [])]
            && o.ws == Some(0) && o.process.None?
    ensures var st := Initial(MainRules, store); var o := ReadyStep(MainRules, st, true);
            && o.sockets == [] && o.process == Some(Process(false)) && o.timers == [Timer(3000, Connect)]
            && FireStep(MainRules, o, 0, env).sockets == [Socket("ws://127.0.0.1:" + IntToString(8000) + "/ws", Connecting, [], [])]
  {
    var st := Initial(MainRules, store);
    assert Prop(Obj(st.settings), "pythonPort") == Int(8000);
    var o := ReadyStep(MainRules, st, true);
    assert Url(MainRules, o.(timers := RemoveAt(o.timers, 0))) == Url(MainRules, st);
  }

  /** `get-backend-status` has no port field. */
  lemma StatusWithoutPort(st: State)
    requires WellFormed(st)
    ensures StatusOf(MainRules, st).port.None?
  {
  }
}
