/** main-fixed.js: the module-level variant of the main.js supervisor.
    It differs from main.js in three ways: the default port is 8001,
    `save-settings` merges in place with `Object.assign`, and start-up is
    deferred by 1000 ms. It then connects even when the backend script is
    missing. */
module MainFixed {
  import opened Common
  import opened Supervisor
  import MainApp

  const FixedRules := Supervisor.Rules(IdOrType, true, false, false, Some(8001), false, DeferredStartThenConnect, true)

  /** Matching, timeout and reconnection are those of main.js. */
  lemma SupervisesLikeMain()
    ensures FixedRules.(settingsPort := Some(8000), startup := StartThenConnect, mergeInPlace := false) == MainApp.MainRules
  {
  }

  /** With no stored port the settings hold pythonPort 8001. */
  lemma DefaultPort8001(store: map<string, Value>)
    requires "pythonPort" !in store
    ensures InitialSettings(FixedRules, store)["pythonPort"] == Int(8001)
  {
  }

  /** The ready event only schedules the deferred start; when it fires
      without the backend script the socket is dialled at once, with it the
      process is spawned and the dial waits 3000 ms. */
  lemma DeferredStartup(st: State, env: Env)
    requires WellFormed(st)
    ensures var o := ReadyStep(FixedRules, st, env.scriptExists);
            && o.sockets == st.sockets && o.process == st.process
            && o.timers == st.timers + [Timer(1000, DeferredStart)]
            && var d := FireStep(FixedRules, o, |o.timers| - 1, env);
               && (!env.scriptExists ==> d.sockets == st.sockets + [Socket(Url(FixedRules, st), Connecting, [], [])])
               && (env.scriptExists ==> d.sockets == st.sockets && d.process == Some(Process(false))
                                        && d.timers == st.timers + [Timer(3000, Connect)])
  {
    var o := ReadyStep(FixedRules, st, env.scriptExists);
    assert RemoveAt(o.timers, |o.timers| - 1) == st.timers;
    assert Url(FixedRules, o.(timers := st.timers)) == Url(FixedRules, st);
  }
}
