/** main-working.js: the supervisor with port discovery.
    - A reply settles a request when its type is 'chat_response', whatever
      its id.
    - Settling clears the timeout, and the timeout does not unregister.
    - 'error' and 'close' each schedule a reconnect.
    - The port is discovered: 8000 at first, then set from the backend's
      stdout and from the port file.
    - The status reports the port.
    - Nothing connects when the backend script is missing.
    - `save-settings` uses `Object.assign`. */
module MainWorking {
  import opened Common
  import opened Supervisor

  const WorkingRules := Supervisor.Rules(TypeOnly, false, true, true, None, true, StartThenGatedConnect, true)

  /** A reply carrying the request's id but another type settles nothing. */
  lemma IdIsIgnored(st: State, s: nat, q: nat, reply: Value)
    requires WellFormed(st) && s < |st.sockets| && q < |st.requests|
    requires st.requests[q].id.Some? && reply.Obj?
    requires Prop(reply, "id") == Str(st.requests[q].id.value) && Prop(reply, "type") != Str("chat_response")
    ensures MessageStep(WorkingRules, st, s, Some(reply)).requests[q].promise == st.requests[q].promise
  {
    MessageSettles(WorkingRules, st, s, Some(reply), q);
  }

  /** Handlers that fire clear their request's timer. */
  lemma {:induction false} DeliverClearsTimer(st: State, hs: seq<nat>, parsed: Option<Value>, q: nat)
    requires WellFormed(st) && (forall h :: h in hs ==> h < |st.requests|) && q < |st.requests|
    requires q in hs && Fires(TypeOnly, parsed, st.requests[q].id)
    ensures forall t :: t in Deliver(WorkingRules, st, hs, parsed).timers ==> t.job != RequestTimeout(q)
    decreases |hs|
  {
    assert hs[0] in hs && forall h :: h in hs[1..] ==> h in hs;
    var st1 := Handle(WorkingRules, st, hs[0], parsed);
    if q != hs[0] {
      assert q in hs[1..];
      DeliverClearsTimer(st1, hs[1..], parsed, q);
    }
  }

  /** A 'chat_response' settles every waiting request on the socket and
      clears its timer; the handler of the current socket is gone. */
  lemma ReplyClearsTimeout(st: State, s: nat, q: nat, reply: Value)
    requires WellFormed(st) && s < |st.sockets| && q < |st.requests|
    requires q in st.sockets[s].handlers && reply.Obj? && Prop(reply, "type") == Str("chat_response")
    ensures var o := MessageStep(WorkingRules, st, s, Some(reply));
            && o.requests[q].promise == Settle(st.requests[q].promise, Resolved(reply))
            && (forall t :: t in o.timers ==> t.job != RequestTimeout(q))
            && (st.ws == Some(s) ==> q !in o.sockets[s].handlers)
  {
    MessageSettles(WorkingRules, st, s, Some(reply), q);
    var st1 := st.(pushes := st.pushes + [BackendMessage(reply)]);
    assert HandlersKnown(st.sockets[s], st.requests);
    DeliverClearsTimer(st1, st.sockets[s].handlers, Some(reply), q);
  }

  /** The timeout rejects but leaves the handler registered; the next
      'chat_response' then removes it and the promise stays rejected. */
  lemma LateReplyAfterTimeout(st: State, k: nat, env: Env, reply: Value)
    requires WellFormed(st) && k < |st.timers| && st.timers[k].job.RequestTimeout? && st.ws.Some?
    requires st.timers[k].job.request in st.sockets[st.ws.value].handlers
    requires st.requests[st.timers[k].job.request].promise.Pending?
    requires reply.Obj? && Prop(reply, "type") == Str("chat_response")
    ensures var r := st.timers[k].job.request; var o := FireStep(WorkingRules, st, k, env); var w := st.ws.value;
            && o.requests[r].promise == Rejected(Timeout)
            && r in o.sockets[w].handlers
            && var m := MessageStep(WorkingRules, o, w, Some(reply));
               m.requests[r].promise == Rejected(Timeout) && r !in m.sockets[w].handlers
  {
    TimeoutStep(WorkingRules, st, k, env);
    var r := st.timers[k].job.request;
    var o := FireStep(WorkingRules, st, k, env);
    ReplyClearsTimeout(o, st.ws.value, r, reply);
  }

  /** An 'error' event schedules a reconnect after 2000 ms, which dials
      exactly when the app is not quitting; a 'close' schedules its own. */
  lemma ErrorThenReconnect(st: State, s: nat, env: Env)
    requires WellFormed(st) && s < |st.sockets|
    ensures var e := ErrorStep(WorkingRules, st);
            && e.timers == st.timers + [Timer(2000, Reconnect)]
            && |FireStep(WorkingRules, e, |e.timers| - 1, env).sockets| == |st.sockets| + (if st.quitting then 0 else 1)
    ensures var c := CloseStep(WorkingRules, ErrorStep(WorkingRules, st), s);
            c.timers == st.timers + [Timer(2000, Reconnect), Timer(5000, Reconnect)]
  {
    var e := ErrorStep(WorkingRules, st);
    ReconnectUnlessQuitting(WorkingRules, e, |e.timers| - 1, env);
  }

  /** Without the backend script start-up does nothing: no process, no
      timer, hence no connection. */
  lemma MissingScriptNeverConnects(st: State)
    requires WellFormed(st)
    ensures ReadyStep(WorkingRules, st, false) == st
  {
  }

  /** A stdout line announcing the port sets it. */
  lemma StdoutSetsPort(st: State, digits: string)
    requires digits != [] && AllDigits(digits)
    ensures StdoutStep(WorkingRules, st, Some(digits)).currentPort == Some(DigitsValue(digits))
  {
  }

  /** After the 5000 ms warm-up an existing port file overrides the port,
      and the connection made 2000 ms later dials it. */
  lemma PortFileOverrides(st: State, k: nat, env: Env, n: int)
    requires WellFormed(st) && k < |st.timers| && st.timers[k].job == Warmup
    requires env.portFile.Some? && JsParseInt(Strip(JavaScript, env.portFile.value)) == Some(n)
    ensures var w := FireStep(WorkingRules, st, k, env);
            && w.currentPort == Some(n)
            && |w.timers| > 0 && w.timers[|w.timers| - 1] == Timer(2000, Connect)
            && var c := FireStep(WorkingRules, w, |w.timers| - 1, env);
               c.sockets == w.sockets + [Socket("ws://127.0.0.1:" + IntToString(n) + "/ws", Connecting, [], [])]
  {
    WarmupReadsPortFile(st, k, env, n);
    var w := FireStep(WorkingRules, st, k, env);
    ConnectDialsPort(w, env, n);
  }

  /** The warm-up timer takes the port from the file and queues the connect timer. */
  lemma WarmupReadsPortFile(st: State, k: nat, env: Env, n: int)
    requires WellFormed(st) && k < |st.timers| && st.timers[k].job == Warmup
    requires env.portFile.Some? && JsParseInt(Strip(JavaScript, env.portFile.value)) == Some(n)
    ensures var w := FireStep(WorkingRules, st, k, env);
            w.currentPort == Some(n) && |w.timers| > 0 && w.timers[|w.timers| - 1] == Timer(2000, Connect)
  {
    WarmupFires(st, k, env);
  }

  /** The connect timer dials the discovered port. */
  lemma ConnectDialsPort(w: State, env: Env, n: int)
    requires WellFormed(w) && |w.timers| > 0 && w.timers[|w.timers| - 1] == Timer(2000, Connect)
    requires w.currentPort == Some(n)
    ensures FireStep(WorkingRules, w, |w.timers| - 1, env).sockets
            == w.sockets + [Socket("ws://127.0.0.1:" + IntToString(n) + "/ws", Connecting, [], [])]
  {
    ConnectFires(w, env);
  }

  /** Firing the warm-up timer runs the warm-up step without that timer. */
  lemma WarmupFires(st: State, k: nat, env: Env)
    requires WellFormed(st) && k < |st.timers| && st.timers[k].job == Warmup
    ensures FireStep(WorkingRules, st, k, env) == WarmupStep(st.(timers := RemoveAt(st.timers, k)), env.portFile)
  {
  }

  /** Firing the last timer, a connect timer, dials without that timer. */
  lemma ConnectFires(w: State, env: Env)
    requires WellFormed(w) && |w.timers| > 0 && w.timers[|w.timers| - 1].job == Connect
    ensures FireStep(WorkingRules, w, |w.timers| - 1, env)
            == ConnectStep(WorkingRules, w.(timers := RemoveAt(w.timers, |w.timers| - 1)))
  {
  }

  /** Start-up with the script spawns the process and waits 5000 ms; the
      port starts at 8000 and the status reports it. */
  lemma StartupWaitsAndReportsPort(store: map<string, Value>)
    ensures var o := ReadyStep(WorkingRules, Initial(WorkingRules, store), true);
            && o.sockets == [] && o.process == Some(Process(false)) && o.timers == [Timer(5000, Warmup)]
            && StatusOf(WorkingRules, o).port == Some(Some(8000))
  {
  }
}
