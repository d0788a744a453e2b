/** `SystemTasks` (tasks/system_tasks.py): the safe-mode whitelist of
    `run_command` and the application lookup of `open_app`. Running the
    command and launching the application are oracles; the model records
    what would be handed to them. */
module SystemTasks {
  import opened Common

  /** The longest prefix of s without blanks. */
  function Word(s: string): (r: string)
    ensures |r| <= |s| && r == s[..|r|]
    ensures forall i :: 0 <= i < |r| ==> !IsSpace(Python, r[i])
    ensures |r| < |s| ==> IsSpace(Python, s[|r|])
    ensures s != [] && !IsSpace(Python, s[0]) ==> |r| >= 1
  {
    if s != [] && !IsSpace(Python, s[0]) then [s[0]] + Word(s[1..]) else ""
  }

  /** A non-empty run of non-blank characters. */
  predicate IsWord(w: string) {
    w != "" && forall i :: 0 <= i < |w| ==> !IsSpace(Python, w[i])
  }

  /** Python's str.split() with no argument. */
  function SplitWords(s: string): (r: seq<string>)
    ensures forall k :: 0 <= k < |r| ==> IsWord(r[k])
    decreases |s|
  {
    if s == [] then []
    else if IsSpace(Python, s[0]) then SplitWords(s[1..])
    else
      var w := Word(s);
      [w] + SplitWords(s[|w|..])
  }

  /** split() yields no words exactly for blank text. */
  lemma {:induction false} SplitWordsEmptyIffBlank(s: string)
    ensures SplitWords(s) == [] <==> AllSpace(Python, s)
    decreases |s|
  {
    if s != [] && IsSpace(Python, s[0]) {
      SplitWordsEmptyIffBlank(s[1..]);
      assert AllSpace(Python, s) <==> AllSpace(Python, s[1..]) by {
        if AllSpace(Python, s[1..]) {
          forall i | 0 <= i < |s| ensures IsSpace(Python, s[i]) {
            if i > 0 { assert s[i] == s[1..][i - 1]; }
          }
        }
      }
    }
  }

  /** `command.split()[0] if command.split() else ""`. */
  function CommandBase(command: string): (r: string)
    ensures r == "" <==> AllSpace(Python, command)
    ensures r != "" ==> IsWord(r)
  {
    SplitWordsEmptyIffBlank(command);
    var ws := SplitWords(command);
    if ws == [] then "" else ws[0]
  }

  const SafeCommands: seq<string> := ["ls", "dir", "pwd", "whoami", "date", "time",
                                      "ps", "top", "df", "free", "uptime", "uname"]

  /** Safe mode admits a command exactly when its first word is listed;
      the comparison is case-sensitive. */
  predicate Allowed(command: string, safeMode: bool)
    ensures Allowed(command, safeMode) && safeMode ==> !AllSpace(Python, command)
    ensures !safeMode ==> Allowed(command, safeMode)
  {
    !safeMode || CommandBase(command) in SafeCommands
  }

  /** What `subprocess.run` yields. */
  datatype RunOutcome = Completed(stdout: string, stderr: string, code: int) | TimedOut | Failed(text: string)

  datatype CommandReply = CommandReply(reply: map<string, Value>, executed: Option<string>)

  function SafeList(): Value {
    List(seq(|SafeCommands|, i requires 0 <= i < |SafeCommands| => Str(SafeCommands[i])))
  }

  /** `run_command(command, safe_mode)`: a rejected command runs nothing and
      reports the whitelist; an admitted one is run and its outcome reported. */
  function RunCommand(run: string -> RunOutcome, command: string, safeMode: bool): (r: CommandReply)
    ensures r.executed.Some? <==> Allowed(command, safeMode)
    ensures r.executed.Some? ==> r.executed.value == command
    ensures !Allowed(command, safeMode) ==>
      r.reply == map["success" := Bool(false),
                     "message" := Str("Command '" + CommandBase(command) + "' not allowed in safe mode"),
                     "safe_commands" := SafeList()]
    ensures "success" in r.reply && (r.reply["success"] == Bool(true) <==> Allowed(command, safeMode) && run(command).Completed?)
  {
    if !Allowed(command, safeMode) then
      CommandReply(map["success" := Bool(false),
                       "message" := Str("Command '" + CommandBase(command) + "' not allowed in safe mode"),
                       "safe_commands" := SafeList()], None)
    else
      var reply := match run(command)
        case Completed(out, err, code) =>
          map["success" := Bool(true), "message" := Str("Command '" + command + "' executed successfully"),
              "output" := Str(out), "error" := Str(err), "return_code" := Int(code)]
        case TimedOut => map["success" := Bool(false), "message" := Str("Command timed out after 30 seconds")]
        case Failed(e) => map["success" := Bool(false), "message" := Str("Failed to run command: " + e)];
      CommandReply(reply, Some(command))
  }

  /** Blank commands are rejected in safe mode since their base is "". */
  lemma BlankCommandRejected(command: string)
    requires AllSpace(Python, command)
    ensures !Allowed(command, true)
  {
    SplitWordsEmptyIffBlank(command);
  }

  /** A command starting with a word followed by a blank or nothing has
      that word as its base. */
  lemma {:induction false} BaseIsLeadingWord(w: string, tail: string)
    requires w != [] && forall i :: 0 <= i < |w| ==> !IsSpace(Python, w[i])
    requires tail == [] || IsSpace(Python, tail[0])
    ensures CommandBase(w + tail) == w
  {
    var c := w + tail;
    assert c[0] == w[0];
    WordOfPrefix(w, tail);
  }

  lemma {:induction false} WordOfPrefix(w: string, tail: string)
    requires forall i :: 0 <= i < |w| ==> !IsSpace(Python, w[i])
    requires tail == [] || IsSpace(Python, tail[0])
    ensures Word(w + tail) == w
    decreases |w|
  {
    if w == [] {
      assert w + tail == tail;
    } else {
      assert (w + tail)[1..] == w[1..] + tail;
      WordOfPrefix(w[1..], tail);
    }
  }

  /** The whitelist is case-sensitive: "LS" is rejected. */
  lemma UpperCaseRejected()
    ensures !Allowed("LS", true)
  {
    var w := "LS";
    assert !IsSpace(Python, w[0]) && !IsSpace(Python, w[1]);
    BaseIsLeadingWord(w, "");
    assert w + "" == w;
    NoListedCommandStartsWith('L');
  }

  /** No listed command starts with an upper-case L. */
  lemma NoListedCommandStartsWith(c: char)
    requires c == 'L'
    ensures forall w :: w in SafeCommands ==> w == [] || w[0] != c
  {
    assert forall i :: 0 <= i < |SafeCommands| ==> SafeCommands[i][0] != 'L';
  }

  /** ... while "ls -la" is admitted. */
  lemma ListingAdmitted()
    ensures Allowed("ls -la", true)
  {
    var w := "ls";
    assert !IsSpace(Python, w[0]) && !IsSpace(Python, w[1]);
    BaseIsLeadingWord(w, " -la");
    assert w + " -la" == "ls -la";
    assert SafeCommands[0] == w;
  }

  /** split() breaks at any blank Python knows, the no-break space
      included, so "ls", U+00A0, "-la" is admitted too. */
  lemma NoBreakSpaceSeparates()
    ensures Allowed("ls\U{00A0}-la", true)
  {
    var w := "ls";
    var tail := "\U{00A0}-la";
    assert !IsSpace(Python, w[0]) && !IsSpace(Python, w[1]) && IsSpace(Python, tail[0]);
    BaseIsLeadingWord(w, tail);
    assert w + tail == "ls\U{00A0}-la";
    assert SafeCommands[0] == w;
  }

  // ------------------------------------------------------------------ open_app

  function AppTable(platform: string): map<string, string> {
    if platform == "darwin" then
      map["calculator" := "open -a Calculator", "notepad" := "open -a TextEdit",
          "browser" := "open -a Safari", "chrome" := "open -a \"Google Chrome\"",
          "firefox" := "open -a Firefox", "finder" := "open .", "terminal" := "open -a Terminal"]
    else if platform == "windows" then
      map["calculator" := "calc", "notepad" := "notepad", "browser" := "start msedge",
          "chrome" := "start chrome", "firefox" := "start firefox", "explorer" := "explorer",
          "cmd" := "start cmd"]
    else if platform == "linux" then
      map["calculator" := "gnome-calculator", "notepad" := "gedit", "browser" := "firefox",
          "chrome" := "google-chrome", "firefox" := "firefox", "files" := "nautilus",
          "terminal" := "gnome-terminal"]
    else map[]
  }

  /** The command `open_app` starts: the platform's entry for the lowered
      name, or the name itself. */
  function ResolveApp(platform: string, appName: string): (r: string)
    ensures ToLower(appName) in AppTable(platform) ==> r == AppTable(platform)[ToLower(appName)]
    ensures ToLower(appName) !in AppTable(platform) ==> r == appName
  {
    var table := AppTable(platform);
    if ToLower(appName) in table && table[ToLower(appName)] != "" then table[ToLower(appName)] else appName
  }

  lemma UnknownPlatformUsesName(platform: string, appName: string)
    requires platform !in {"darwin", "windows", "linux"}
    ensures ResolveApp(platform, appName) == appName
  {
  }

  /** How the resolved command is launched: through the shell on Windows,
      otherwise split into an argument vector. */
  datatype Launch = Shell(command: string) | Argv(args: seq<string>)

  function LaunchFor(platform: string, appName: string): (r: Launch)
    ensures r.Shell? <==> platform == "windows"
    ensures r.Shell? ==> r.command == ResolveApp(platform, appName)
    ensures r.Argv? ==> forall k :: 0 <= k < |r.args| ==> IsWord(r.args[k])
    ensures r.Argv? && AllSpace(Python, ResolveApp(platform, appName)) ==> r.args == []
  {
    var cmd := ResolveApp(platform, appName);
    SplitWordsEmptyIffBlank(cmd);
    if platform == "windows" then Shell(cmd) else Argv(SplitWords(cmd))
  }

  /** `open_app(app_name)`; `launch` gives the error text when Popen raises. */
  function OpenApp(launch: Launch -> Option<string>, platform: string, appName: string): (r: map<string, Value>)
    ensures launch(LaunchFor(platform, appName)).None? ==>
      r == map["success" := Bool(true), "message" := Str("Successfully opened " + appName), "app_name" := Str(appName)]
    ensures launch(LaunchFor(platform, appName)).Some? ==>
      r == map["success" := Bool(false),
               "message" := Str("Failed to open " + appName + ": " + launch(LaunchFor(platform, appName)).value)]
  {
    match launch(LaunchFor(platform, appName))
    case None => map["success" := Bool(true), "message" := Str("Successfully opened " + appName), "app_name" := Str(appName)]
    case Some(e) => map["success" := Bool(false), "message" := Str("Failed to open " + appName + ": " + e)]
  }
}
