/** components/chat.js: the `ChatManager` of the renderer.
    - The message history is a bounded buffer that keeps the last 100
      messages.
    - Saved conversations are kept newest-first, at most 50 of them.
    - Replies are shown by precedence, and action results are formatted.
    - Sending is guarded by `isProcessing`.
    The DOM is reduced to two facts: whether the #chatMessages element
    exists, and the value of the #messageInput element. Clock readings
    (`new Date().toISOString()`) are parameters. The stored history is a
    sequence of conversation values. */
module Chat {
  import opened Common

  const MessageCap: nat := 100
  const ConversationCap: nat := 50

  const Apology := "I apologize, but I encountered an error processing your request. Please try again."
  const Rephrase := "I received your message but had trouble understanding it. Could you please try rephrasing?"
  const SuccessDefault := "Action completed successfully."
  const FailureDefault := "The action could not be completed."

  /** The break before a content preview as chat.js writes it. The template
      literal escapes its backslashes, so it holds the four characters
      backslash, 'n', backslash, 'n'. */
  const WrittenBreak := @"\n\n"
  /** The corrected break: two newlines, as renderer-working.js writes it. */
  const Break := "\n\n"

  /** The break a build of chat.js puts before a content preview. */
  function BreakOf(b: Build): (r: string)
    ensures b.Corrected? <==> '\n' in r
  {
    if b.AsWritten? then WrittenBreak else Break
  }

  /** An entry of `messageHistory`. */
  datatype Message = Message(text: Value, sender: string, kind: string, timestamp: string)

  function Min(a: nat, b: nat): nat { if a <= b then a else b }

  /** The last n elements of s, or all of s when it is shorter. */
  function Last<T>(s: seq<T>, n: nat): seq<T> {
    s[|s| - Min(|s|, n)..]
  }

  /** The first n elements of s, or all of s when it is shorter. */
  function First<T>(s: seq<T>, n: nat): seq<T> {
    s[..Min(|s|, n)]
  }

  function Reverse<T>(s: seq<T>): seq<T> {
    if s == [] then [] else Reverse(s[1..]) + [s[0]]
  }

  // ------------------------------------------------------------ bounded buffers

  /** `messageHistory.push(m)`, then `slice(-100)` once it holds more than 100. */
  function Append(history: seq<Message>, m: Message): (r: seq<Message>)
    ensures |r| == Min(|history| + 1, MessageCap)
    ensures r == Last(history + [m], MessageCap)
    ensures r[|r| - 1] == m
  {
    var h := history + [m];
    if |h| > MessageCap then h[|h| - MessageCap..] else h
  }

  /** Messages appended one after another. */
  function AppendAll(history: seq<Message>, ms: seq<Message>): seq<Message>
    decreases |ms|
  {
    if ms == [] then history else AppendAll(Append(history, ms[0]), ms[1..])
  }

  lemma LastOfLast<T>(a: seq<T>, b: seq<T>, n: nat)
    ensures Last(Last(a, n) + b, n) == Last(a + b, n)
  {
    var x := Last(Last(a, n) + b, n);
    var y := Last(a + b, n);
    assert |x| == |y|;
    forall i | 0 <= i < |x|
      ensures x[i] == y[i]
    {
      var k := |x| - i;
      assert x[i] == (Last(a, n) + b)[|Last(a, n) + b| - k];
      assert y[i] == (a + b)[|a + b| - k];
      if k <= |b| {
        assert x[i] == b[|b| - k] == y[i];
      } else {
        assert x[i] == Last(a, n)[|Last(a, n)| - (k - |b|)];
        assert x[i] == a[|a| - (k - |b|)];
      }
    }
  }

  /** However many messages arrive, the history is the last 100 of all of them. */
  lemma {:induction false} AppendAllKeepsLast(history: seq<Message>, ms: seq<Message>)
    requires |history| <= MessageCap
    ensures AppendAll(history, ms) == Last(history + ms, MessageCap)
    decreases |ms|
  {
    if ms == [] {
      assert history + ms == history;
    } else {
      var h1 := Append(history, ms[0]);
      assert AppendAll(history, ms) == AppendAll(h1, ms[1..]);
      AppendAllKeepsLast(h1, ms[1..]);
      LastOfLast(history + [ms[0]], ms[1..], MessageCap);
      assert Last(h1 + ms[1..], MessageCap) == Last(history + [ms[0]] + ms[1..], MessageCap);
      SplitFirst(history, ms);
    }
  }

  lemma SplitFirst<T>(a: seq<T>, b: seq<T>)
    requires b != []
    ensures a + [b[0]] + b[1..] == a + b
  {
    assert [b[0]] + b[1..] == b;
  }

  /** `history.unshift(c)` then `history.slice(0, 50)`. */
  function Remember(saved: seq<Value>, c: Value): (r: seq<Value>)
    ensures |r| == Min(|saved| + 1, ConversationCap)
    ensures r[0] == c && r[1..] == saved[..|r| - 1]
  {
    First([c] + saved, ConversationCap)
  }

  /** Conversations saved one after another. */
  function RememberAll(saved: seq<Value>, cs: seq<Value>): seq<Value>
    decreases |cs|
  {
    if cs == [] then saved else RememberAll(Remember(saved, cs[0]), cs[1..])
  }

  lemma FirstOfFirst<T>(a: seq<T>, b: seq<T>, n: nat)
    ensures First(a + First(b, n), n) == First(a + b, n)
  {
    var x := First(a + First(b, n), n);
    var y := First(a + b, n);
    assert |x| == |y|;
    forall i | 0 <= i < |x|
      ensures x[i] == y[i]
    {
      if i >= |a| {
        assert x[i] == First(b, n)[i - |a|] == b[i - |a|];
      }
    }
  }

  /** The stored history is the 50 newest conversations, newest first. */
  lemma {:induction false} RememberAllNewestFirst(saved: seq<Value>, cs: seq<Value>)
    requires |saved| <= ConversationCap
    ensures RememberAll(saved, cs) == First(Reverse(cs) + saved, ConversationCap)
    decreases |cs|
  {
    if cs == [] {
      assert First(saved, ConversationCap) == saved;
    } else {
      var s1 := Remember(saved, cs[0]);
      RememberAllNewestFirst(s1, cs[1..]);
      FirstOfFirst(Reverse(cs[1..]), [cs[0]] + saved, ConversationCap);
      assert Reverse(cs[1..]) + ([cs[0]] + saved) == Reverse(cs) + saved;
    }
  }

  // ------------------------------------------------------------ text helpers

  /** `s.substring(0, n) + (s.length > n ? '...' : '')`. JavaScript
      counts a string's length and cuts it in UTF-16 code units. */
  function Abbreviate(s: string, n: nat): (r: string)
    ensures Utf16Length(s) <= n ==> r == s
    ensures Utf16Length(s) > n ==>
              3 <= |r| && |r| - 3 < |s| && r[..|r| - 3] == s[..|r| - 3] && r[|r| - 3..] == "..."
    ensures Utf16Length(s) > n ==> Utf16Length(r) >= n + 2 && Utf16Length(s[..|r| - 2]) > n
    ensures Utf16Length(r) <= n + 3
  {
    var head := TakeUnits(s, n);
    TakeUnitsMaximal(s, n);
    var tail := if Utf16Length(s) > n then "..." else "";
    Utf16LengthAppend(head, tail);
    head + tail
  }

  /** Title and preview of a saved conversation in the history panel. They
      throw when userMessage or aiResponse is not a string. */
  function HistoryLine(conversation: Value): (r: Result<(string, string)>)
    ensures r.Ok? <==> Prop(conversation, "userMessage").Str? && Prop(conversation, "aiResponse").Str?
    ensures r.Ok? ==> Utf16Length(r.value.0) <= 53 && Utf16Length(r.value.1) <= 103
    ensures r.Ok? && Utf16Length(Prop(conversation, "userMessage").s) <= 50 ==> r.value.0 == Prop(conversation, "userMessage").s
    ensures r.Ok? && Utf16Length(Prop(conversation, "aiResponse").s) <= 100 ==> r.value.1 == Prop(conversation, "aiResponse").s
    ensures r.Ok? ==> r.value == (Abbreviate(Prop(conversation, "userMessage").s, 50), Abbreviate(Prop(conversation, "aiResponse").s, 100))
  {
    var u := Prop(conversation, "userMessage");
    var a := Prop(conversation, "aiResponse");
    if u.Str? && a.Str? then Ok((Abbreviate(u.s, 50), Abbreviate(a.s, 100)))
    else Raised("TypeError: substring is not a function")
  }

  /** The fixed prompts of the quick-action cards. */
  function QuickPrompt(action: string): (r: Option<string>)
    ensures r.Some? <==> action in {"create_document", "find_files", "set_alarm", "get_system_info"}
    ensures r.Some? ==> r.value != ""
  {
    if action == "create_document" then Some("Create a new document called \"example.txt\" with some sample content")
    else if action == "find_files" then Some("Find all text files in the current directory")
    else if action == "set_alarm" then Some("Set a reminder for 5 minutes to take a break")
    else if action == "get_system_info" then Some("Show me the current system information")
    else None
  }

  // ------------------------------------------------------------ action results

  /** Whether `files && files.length > 0` holds. Only arrays, strings and
      objects have a length; a truthy string is non-empty. */
  predicate ListsFiles(files: Value) {
    match files
    case List(xs) => |xs| > 0
    case Str(s) => s != ""
    case Obj(_) => NumGreater(JsToNumber(Prop(files, "length")), 0)
    case _ => false
  }

  /** One element as `join` prints it: null and undefined as "". */
  function ElementText(x: Value): string {
    if x.Null? || x.Undefined? then "" else JsString(x)
  }

  /** The elements as `join` prints them, in order. */
  function ElementTexts(xs: seq<Value>): (r: seq<string>)
    ensures |r| == |xs|
    ensures forall i :: 0 <= i < |xs| ==> r[i] == ElementText(xs[i])
  {
    if xs == [] then [] else [ElementText(xs[0])] + ElementTexts(xs[1..])
  }

  /** The " Found N files: …" clause. Only an array has both `slice` and
      `join`; a string or an object throws. */
  function FilesClause(files: Value): (r: Result<string>)
    requires ListsFiles(files)
    ensures r.Ok? <==> files.List?
    ensures r.Ok? ==> StartsWith(r.value, " Found " + NatToString(|files.items|) + " files: ")
    ensures r.Ok? ==> r.value == " Found " + NatToString(|files.items|) + " files: "
                                 + Join(ElementTexts(First(files.items, 3)), ", ")
                                 + (if |files.items| > 3 then "..." else "")
  {
    if files.List? then
      var xs := files.items;
      Ok(" Found " + NatToString(|xs|) + " files: " + Join(ElementTexts(First(xs, 3)), ", ") + (if |xs| > 3 then "..." else ""))
    else Raised("TypeError: join is not a function")
  }

  /** With three files or more, exactly the first three are named, separated
      by ", ", and "..." follows iff there are more. */
  lemma FilesClauseNamesFirstThree(xs: seq<Value>)
    requires |xs| >= 3
    ensures FilesClause(List(xs)) == Ok(" Found " + NatToString(|xs|) + " files: "
              + (ElementText(xs[0]) + ", " + ElementText(xs[1]) + ", " + ElementText(xs[2]))
              + (if |xs| > 3 then "..." else ""))
  {
    var pre := " Found " + NatToString(|xs|) + " files: ";
    var tail := if |xs| > 3 then "..." else "";
    var ts := ElementTexts(First(xs, 3));
    assert FilesClause(List(xs)) == Ok(pre + Join(ts, ", ") + tail);
    var a, b, c := ElementText(xs[0]), ElementText(xs[1]), ElementText(xs[2]);
    assert ts == [a, b, c];
    JoinThree(a, b, c, ", ");
  }

  /** With one or two files, every file is named and no "..." follows. */
  lemma FilesClauseNamesAll(xs: seq<Value>)
    requires 1 <= |xs| <= 2
    ensures FilesClause(List(xs)) == Ok(" Found " + NatToString(|xs|) + " files: "
              + (if |xs| == 2 then ElementText(xs[0]) + ", " + ElementText(xs[1]) else ElementText(xs[0])))
  {
    var pre := " Found " + NatToString(|xs|) + " files: ";
    var ts := ElementTexts(First(xs, 3));
    assert First(xs, 3) == xs;
    assert FilesClause(List(xs)) == Ok(pre + Join(ts, ", ") + "");
    assert pre + Join(ts, ", ") + "" == pre + Join(ts, ", ");
    if |xs| == 2 {
      var a, b := ElementText(xs[0]), ElementText(xs[1]);
      assert ts == [a, b] && ts[1..] == [b];
      assert Join(ts, ", ") == a + ", " + b;
    } else {
      assert ts == [ElementText(xs[0])];
    }
  }

  /** The content-preview clause after the given break; content other than a
      string has no `substring` and throws. */
  function ContentClause(content: Value, brk: string): (r: Result<string>)
    ensures r.Ok? <==> content.Str?
    ensures r.Ok? ==> r.value == brk + "Content preview: " + Abbreviate(content.s, 100)
  {
    if content.Str? then Ok(brk + "Content preview: " + Abbreviate(content.s, 100))
    else Raised("TypeError: substring is not a function")
  }

  /** The text and type of the message `handleActionResult` adds. */
  datatype Note = Note(text: Value, kind: string)

  /** Whether formatting a successful result throws. */
  predicate FormatThrows(result: Value) {
    (ListsFiles(Prop(result, "files")) && !Prop(result, "files").List?)
    || (JsTruthy(Prop(result, "content")) && !Prop(result, "content").Str?)
  }

  predicate EndsWith(s: string, t: string) {
    |t| <= |s| && s[|s| - |t|..] == t
  }

  /** The clauses a successful result appends to its message: files, alarm
      id, content preview, each only when its field calls for it. */
  function Clauses(result: Value, brk: string): (r: Result<string>)
    ensures r.Raised? <==> FormatThrows(result)
    ensures r.Ok? && JsTruthy(Prop(result, "alarm_id")) ==> r.value != ""
    ensures r.Ok? && JsTruthy(Prop(result, "content")) ==>
              r.value != "" && EndsWith(r.value, ContentClause(Prop(result, "content"), brk).value)
    ensures r.Ok? && !ListsFiles(Prop(result, "files")) && !JsTruthy(Prop(result, "content")) ==>
              r.value == if JsTruthy(Prop(result, "alarm_id")) then " (Alarm ID: " + JsString(Prop(result, "alarm_id")) + ")" else ""
    ensures r.Ok? ==>
              var files, alarm, content := Prop(result, "files"), Prop(result, "alarm_id"), Prop(result, "content");
              r.value == (if ListsFiles(files) then FilesClause(files).value else "")
                         + (if JsTruthy(alarm) then " (Alarm ID: " + JsString(alarm) + ")" else "")
                         + (if JsTruthy(content) then ContentClause(content, brk).value else "")
    ensures r.Ok? ==> (r.value == "" <==> !ListsFiles(Prop(result, "files")) && !JsTruthy(Prop(result, "alarm_id")) && !JsTruthy(Prop(result, "content")))
  {
    var files := Prop(result, "files");
    var alarm := Prop(result, "alarm_id");
    var content := Prop(result, "content");
    var f := if ListsFiles(files) then FilesClause(files) else Ok("");
    var c := if JsTruthy(content) then ContentClause(content, brk) else Ok("");
    if f.Raised? then Raised(f.error)
    else if c.Raised? then Raised(c.error)
    else
      var a := if JsTruthy(alarm) then " (Alarm ID: " + JsString(alarm) + ")" else "";
      assert (f.value + a + c.value)[|f.value + a + c.value| - |c.value|..] == c.value;
      Ok(f.value + a + c.value)
  }

  /** `handleActionResult`'s message for a result, with the given break
      before the content preview. No message for a falsy result. Otherwise
      the message or a default, and on success the clauses for files, the
      alarm id and the content. The text stays the message value itself
      when no clause applies; `+=` turns it into a string. */
  function ActionNote(result: Value, brk: string): (r: Result<Option<Note>>)
    ensures !JsTruthy(result) ==> r == Ok(None)
    ensures JsTruthy(result) && r.Ok? ==> r.value.Some?
    ensures r.Ok? && r.value.Some? ==> r.value.value.kind == if JsTruthy(Prop(result, "success")) then "success" else "error"
    ensures JsTruthy(result) && !JsTruthy(Prop(result, "success")) ==>
              r == Ok(Some(Note(JsOr(Prop(result, "message"), Str(FailureDefault)), "error")))
    ensures r.Raised? <==> JsTruthy(result) && JsTruthy(Prop(result, "success")) && FormatThrows(result)
    ensures JsTruthy(result) && JsTruthy(Prop(result, "success")) && r.Ok? ==>
              var suffix := Clauses(result, brk).value;
              var base := JsOr(Prop(result, "message"), Str(SuccessDefault));
              r == Ok(Some(Note(if suffix == "" then base else Str(JsString(base) + suffix), "success")))
  {
    if !JsTruthy(result) then Ok(None)
    else if !JsTruthy(Prop(result, "success")) then
      Ok(Some(Note(JsOr(Prop(result, "message"), Str(FailureDefault)), "error")))
    else
      match Clauses(result, brk)
      case Raised(e) => Raised(e)
      case Ok(suffix) =>
        var base := JsOr(Prop(result, "message"), Str(SuccessDefault));
        Ok(Some(Note(if suffix == "" then base else Str(JsString(base) + suffix), "success")))
  }

  /** On success the note is the message or the default, then the files
      clause, the alarm id and the content preview, in that order; with none
      of the three it is the message value itself. */
  lemma SuccessNoteText(result: Value, brk: string)
    requires JsTruthy(Prop(result, "success")) && ActionNote(result, brk).Ok?
    ensures var files, alarm, content := Prop(result, "files"), Prop(result, "alarm_id"), Prop(result, "content");
            var base := JsOr(Prop(result, "message"), Str(SuccessDefault));
            var f := if ListsFiles(files) then FilesClause(files).value else "";
            var a := if JsTruthy(alarm) then " (Alarm ID: " + JsString(alarm) + ")" else "";
            var c := if JsTruthy(content) then ContentClause(content, brk).value else "";
            ActionNote(result, brk)
            == Ok(Some(Note(if ListsFiles(files) || JsTruthy(alarm) || JsTruthy(content) then Str(JsString(base) + (f + a + c)) else base, "success")))
  {
    assert JsTruthy(result);
  }

  /** A successful result that lists files shows the message or the default,
      then " Found n files: " with the first names, before anything else. */
  lemma SuccessNoteListsFiles(result: Value, brk: string)
    requires JsTruthy(Prop(result, "success")) && ActionNote(result, brk).Ok?
    requires Prop(result, "files").List? && |Prop(result, "files").items| > 0
    ensures var xs := Prop(result, "files").items;
            var base := JsString(JsOr(Prop(result, "message"), Str(SuccessDefault)));
            var n := ActionNote(result, brk).value.value;
            n.text.Str? && StartsWith(n.text.s, base + (" Found " + NatToString(|xs|) + " files: " + Join(ElementTexts(First(xs, 3)), ", ")))
  {
    var files := Prop(result, "files");
    assert ListsFiles(files);
    SuccessNoteText(result, brk);
    var base := JsString(JsOr(Prop(result, "message"), Str(SuccessDefault)));
    var f := FilesClause(files).value;
    var p := " Found " + NatToString(|files.items|) + " files: " + Join(ElementTexts(First(files.items, 3)), ", ");
    var a := if JsTruthy(Prop(result, "alarm_id")) then " (Alarm ID: " + JsString(Prop(result, "alarm_id")) + ")" else "";
    var c := if JsTruthy(Prop(result, "content")) then ContentClause(Prop(result, "content"), brk).value else "";
    assert ActionNote(result, brk).value.value.text == Str(base + (f + a + c));
    PrefixThrough(p, if |files.items| > 3 then "..." else "", a, c);
    PrefixAfter(base, f + a + c, p);
  }

  /** p is a prefix of p + d + a + c. */
  lemma PrefixThrough(p: string, d: string, a: string, c: string)
    ensures StartsWith(p + d + a + c, p)
  {
    assert (p + d + a + c)[..|p|] == p;
  }

  /** A prefix stays one behind a common head. */
  lemma PrefixAfter(x: string, t: string, p: string)
    requires StartsWith(t, p)
    ensures StartsWith(x + t, x + p)
  {
    assert (x + t)[..|x + p|] == x + t[..|p|];
  }

  /** A successful result whose message is a non-empty string is shown with
      that message first. */
  lemma SuccessLeadsWithMessage(result: Value, brk: string)
    requires JsTruthy(Prop(result, "success")) && Prop(result, "message").Str? && Prop(result, "message").s != ""
    requires ActionNote(result, brk).Ok?
    ensures var n := ActionNote(result, brk).value.value;
            n.text.Str? && StartsWith(n.text.s, Prop(result, "message").s) && n.kind == "success"
  {
    var m := Prop(result, "message").s;
    assert JsOr(Prop(result, "message"), Str(SuccessDefault)) == Str(m);
    var suffix := Clauses(result, brk).value;
    assert (m + suffix)[..|m|] == m;
  }

  /** An alarm id is appended as " (Alarm ID: n)" after the message. */
  lemma AlarmIdShown(result: Value, brk: string, id: int)
    requires JsTruthy(Prop(result, "success")) && Prop(result, "message").Str?
    requires Prop(result, "alarm_id") == Int(id) && id != 0
    requires !ListsFiles(Prop(result, "files")) && !JsTruthy(Prop(result, "content"))
    ensures ActionNote(result, brk)
            == Ok(Some(Note(Str(JsString(JsOr(Prop(result, "message"), Str(SuccessDefault))) + " (Alarm ID: " + IntToString(id) + ")"), "success")))
  {
    var sfx := " (Alarm ID: " + IntToString(id) + ")";
    assert Clauses(result, brk) == Ok(sfx);
    var base := JsString(JsOr(Prop(result, "message"), Str(SuccessDefault)));
    assert base + sfx == base + " (Alarm ID: " + IntToString(id) + ")";
  }

  /** The corrected break puts a content preview on a paragraph of its own:
      the text ends with two newlines, the label and at most 100 characters
      of the content. */
  lemma PreviewStartsParagraph(result: Value)
    requires JsTruthy(Prop(result, "success")) && Prop(result, "content").Str? && Prop(result, "content").s != ""
    requires ActionNote(result, Break).Ok?
    ensures var n := ActionNote(result, Break).value.value;
            n.text.Str? && EndsWith(n.text.s, Break + "Content preview: " + Abbreviate(Prop(result, "content").s, 100))
  {
    var tail := ContentClause(Prop(result, "content"), Break).value;
    var suffix := Clauses(result, Break).value;
    var base := JsString(JsOr(Prop(result, "message"), Str(SuccessDefault)));
    assert suffix != "" && EndsWith(suffix, tail);
    assert ActionNote(result, Break) == Ok(Some(Note(Str(base + suffix), "success")));
    EndsWithAfter(base, suffix, tail);
  }

  lemma EndsWithAfter(a: string, s: string, t: string)
    requires EndsWith(s, t)
    ensures EndsWith(a + s, t)
  {
    assert (a + s)[|a + s| - |t|..] == s[|s| - |t|..];
  }

  /** As written in chat.js the preview follows a literal backslash-n pair
      and not a paragraph break. */
  lemma WrittenBreakShowsBackslashes()
    ensures var r := Obj(map["success" := Bool(true), "content" := Str("x")]);
            var n := ActionNote(r, WrittenBreak);
            && n == Ok(Some(Note(Str(SuccessDefault + WrittenBreak + "Content preview: " + "x"), "success")))
            && WrittenBreak == ['\\', 'n', '\\', 'n'] && '\n' !in WrittenBreak
  {
    PreviewOnlyNote(WrittenBreak);
  }

  /** With any break, that result's note is the default message, the break
      and the preview. */
  lemma PreviewOnlyNote(brk: string)
    ensures ActionNote(Obj(map["success" := Bool(true), "content" := Str("x")]), brk)
            == Ok(Some(Note(Str(SuccessDefault + brk + "Content preview: " + "x"), "success")))
  {
    var r := Obj(map["success" := Bool(true), "content" := Str("x")]);
    var c := brk + "Content preview: " + "x";
    PreviewOnlyClauses(brk);
    assert Prop(r, "success") == Bool(true) && Prop(r, "message") == Undefined;
    SuccessNoteOfSuffix(r, brk, c);
    assert JsString(JsOr(Undefined, Str(SuccessDefault))) == SuccessDefault;
    Regroup(SuccessDefault, brk, "Content preview: ", "x");
  }

  lemma Regroup(a: string, b: string, c: string, d: string)
    ensures a + (b + c + d) == a + b + c + d
  {
  }

  /** A success whose clauses are a non-empty suffix shows the message or
      the default followed by that suffix. */
  lemma SuccessNoteOfSuffix(result: Value, brk: string, suffix: string)
    requires JsTruthy(Prop(result, "success")) && Clauses(result, brk) == Ok(suffix) && suffix != ""
    ensures ActionNote(result, brk)
            == Ok(Some(Note(Str(JsString(JsOr(Prop(result, "message"), Str(SuccessDefault))) + suffix), "success")))
  {
    assert JsTruthy(result);
  }

  /** A successful result with content "x" and nothing else has only the
      preview clause. */
  lemma PreviewOnlyClauses(brk: string)
    ensures Clauses(Obj(map["success" := Bool(true), "content" := Str("x")]), brk) == Ok(brk + "Content preview: " + "x")
  {
    var r := Obj(map["success" := Bool(true), "content" := Str("x")]);
    assert Prop(r, "content") == Str("x");
    assert Prop(r, "files") == Undefined && Prop(r, "alarm_id") == Undefined;
    assert Abbreviate("x", 100) == "x";
    var c := brk + "Content preview: " + "x";
    assert ContentClause(Str("x"), brk) == Ok(c);
    assert "" + "" + c == c;
  }

  // ------------------------------------------------------------ the transcript

  /** What `addMessage` and `saveToHistory` maintain: whether #chatMessages
      exists, the message history and the stored conversation history. */
  datatype Transcript = Transcript(shown: bool, messages: seq<Message>, saved: seq<Value>)

  /** `addMessage(text, sender, type)`: nothing without #chatMessages. */
  function Add(t: Transcript, text: Value, sender: string, kind: string, now: string): (r: Transcript)
    ensures !t.shown ==> r == t
    ensures t.shown ==> r.messages == Append(t.messages, Message(text, sender, kind, now))
    ensures r.shown == t.shown && r.saved == t.saved
  {
    if !t.shown then t else t.(messages := Append(t.messages, Message(text, sender, kind, now)))
  }

  /** `saveToHistory(c)`. */
  function Save(t: Transcript, c: Value): (r: Transcript)
    ensures |r.saved| == Min(|t.saved| + 1, ConversationCap)
    ensures r.saved[0] == c && r.saved[1..] == t.saved[..|r.saved| - 1]
    ensures r.messages == t.messages && r.shown == t.shown
  {
    t.(saved := Remember(t.saved, c))
  }

  /** The state after a step that may throw, and whether it threw. */
  datatype Outcome = Outcome(t: Transcript, raised: bool)

  /** `handleActionResult(result)` with the given break before a content
      preview: formatting throws before anything is added. */
  function ShowActionResult(t: Transcript, result: Value, brk: string, now: string): (r: Outcome)
    ensures r.raised <==> ActionNote(result, brk).Raised?
    ensures r.raised ==> r.t == t
    ensures !r.raised ==> r.t == if ActionNote(result, brk).value.Some?
                                 then Add(t, ActionNote(result, brk).value.value.text, "ai", ActionNote(result, brk).value.value.kind, now)
                                 else t
    ensures r.t.saved == t.saved
  {
    match ActionNote(result, brk)
    case Raised(_) => Outcome(t, true)
    case Ok(None) => Outcome(t, false)
    case Ok(Some(n)) => Outcome(Add(t, n.text, "ai", n.kind, now), false)
  }

  /** The text of the last message the user sent; undefined when none. */
  function LastUserText(messages: seq<Message>): (r: Value)
    ensures r != Undefined ==> exists i :: 0 <= i < |messages| && messages[i].sender == "user" && messages[i].text == r
  {
    if messages == [] then Undefined
    else if messages[|messages| - 1].sender == "user" then messages[|messages| - 1].text
    else LastUserText(messages[..|messages| - 1])
  }

  /** The userMessage of a saved conversation: the text of the last user
      message, or ''. */
  function UserMessage(messages: seq<Message>): (r: Value)
    ensures JsTruthy(r) || r == Str("")
  {
    JsOr(LastUserText(messages), Str(""))
  }

  /** The userMessage as chat.js and renderer-working.js compute it:
      `messageHistory[length - 2]?.text || ''`. */
  function UserMessageAsWritten(messages: seq<Message>): (r: Value)
    ensures |messages| < 2 ==> r == Str("")
    ensures |messages| >= 2 && JsTruthy(messages[|messages| - 2].text) ==> r == messages[|messages| - 2].text
  {
    if |messages| >= 2 then JsOr(messages[|messages| - 2].text, Str("")) else Str("")
  }

  /** The userMessage a build saves: as written, or the corrected one. */
  function SavedUser(b: Build, messages: seq<Message>): (r: Value)
    ensures b.AsWritten? ==> r == UserMessageAsWritten(messages)
    ensures b.Corrected? ==> r == UserMessage(messages)
  {
    if b.AsWritten? then UserMessageAsWritten(messages) else UserMessage(messages)
  }

  /** The conversation record saved after a reply. */
  function Conversation(now: string, user: Value, data: Value): (r: Value)
    ensures r.Obj? && r.fields.Keys == {"timestamp", "userMessage", "aiResponse", "action", "actionResult"}
    ensures Prop(r, "userMessage") == user && Prop(r, "aiResponse") == Prop(data, "response")
    ensures Prop(r, "actionResult") == Prop(data, "action_result")
  {
    Obj(map["timestamp" := Str(now), "userMessage" := user, "aiResponse" := Prop(data, "response"),
            "action" := Prop(data, "action_executed"), "actionResult" := Prop(data, "action_result")])
  }

  /** The messages a reply's data adds: its response as an AI message when
      truthy, then the note of its action result when truthy. */
  function Shown(brk: string, t: Transcript, data: Value, now: string): Transcript {
    var t1 := if JsTruthy(Prop(data, "response")) then Add(t, Prop(data, "response"), "ai", "normal", now) else t;
    if JsTruthy(Prop(data, "action_result")) then ShowActionResult(t1, Prop(data, "action_result"), brk, now).t else t1
  }

  /** Reply data shows its response as an AI message, followed by the note
      of its action result when that yields one, and nothing else. */
  lemma ReplyShowsResponseThenNote(b: Build, brk: string, t: Transcript, data: Value, now: string)
    requires t.shown && JsTruthy(Prop(data, "response"))
    requires !RecordReply(b, brk, t, data, now).raised
    ensures var m := Append(t.messages, Message(Prop(data, "response"), "ai", "normal", now));
            var ar := Prop(data, "action_result");
            var n := if JsTruthy(ar) then ActionNote(ar, brk).value else None;
            RecordReply(b, brk, t, data, now).t.messages
            == if n.Some? then Append(m, Message(n.value.text, "ai", n.value.kind, now)) else m
  {
    var ar := Prop(data, "action_result");
    if JsTruthy(ar) {
      assert !ActionNote(ar, brk).Raised?;
    }
  }

  /** A reply's data: the AI text if truthy, then the action result (with
      the given break), then the conversation is saved with the userMessage
      of build b. An exception from the action result skips the save. */
  function RecordReply(b: Build, brk: string, t: Transcript, data: Value, now: string): (r: Outcome)
    ensures r.raised <==> JsTruthy(Prop(data, "action_result")) && ActionNote(Prop(data, "action_result"), brk).Raised?
    ensures r.raised ==> r.t.saved == t.saved
    ensures !r.raised ==> |r.t.saved| == Min(|t.saved| + 1, ConversationCap) && r.t.saved[1..] == t.saved[..|r.t.saved| - 1]
    ensures !r.raised ==> r.t.messages == Shown(brk, t, data, now).messages && r.t.shown == t.shown
  {
    var t1 := if JsTruthy(Prop(data, "response")) then Add(t, Prop(data, "response"), "ai", "normal", now) else t;
    var o := if JsTruthy(Prop(data, "action_result")) then ShowActionResult(t1, Prop(data, "action_result"), brk, now) else Outcome(t1, false);
    if o.raised then o
    else Outcome(Save(o.t, Conversation(now, SavedUser(b, o.t.messages), data)), false)
  }

  /** `handleResponse(response)` of build b: precedence data, then
      response, then a fixed request to rephrase. */
  function ResponseStep(b: Build, t: Transcript, response: Value, now: string): (r: Outcome)
    ensures JsTruthy(response) && JsTruthy(Prop(response, "data")) ==> r == RecordReply(b, BreakOf(b), t, Prop(response, "data"), now)
    ensures !(JsTruthy(response) && JsTruthy(Prop(response, "data"))) ==> !r.raised && r.t.saved == t.saved
  {
    if JsTruthy(response) && JsTruthy(Prop(response, "data")) then RecordReply(b, BreakOf(b), t, Prop(response, "data"), now)
    else if JsTruthy(response) && JsTruthy(Prop(response, "response")) then
      Outcome(Add(t, Prop(response, "response"), "ai", "normal", now), false)
    else Outcome(Add(t, Str(Rephrase), "ai", "normal", now), false)
  }

  /** With no data, the reply's own response text is shown if truthy,
      otherwise the request to rephrase; nothing is saved. */
  lemma ResponsePrecedence(b: Build, t: Transcript, response: Value, now: string)
    requires t.shown && !(JsTruthy(response) && JsTruthy(Prop(response, "data")))
    ensures var o := ResponseStep(b, t, response, now);
            var m := o.t.messages[|o.t.messages| - 1];
            && m.sender == "ai"
            && (JsTruthy(response) && JsTruthy(Prop(response, "response")) ==> m.text == Prop(response, "response"))
            && (!(JsTruthy(response) && JsTruthy(Prop(response, "response"))) ==> m.text == Str(Rephrase))
            && o.t.saved == t.saved
  {
  }

  // ------------------------------------------------------------ sending

  /** The ChatManager's fields: the transcript, `isProcessing`, and the
      value of #messageInput (None when the element is missing). */
  datatype ChatState = ChatState(t: Transcript, processing: bool, input: Option<string>)

  /** The state once `sendMessage` reaches its `await`, and the message it
      sends (None when it returned early). */
  datatype Sent = Sent(st: ChatState, message: Option<Value>)

  /** The message `sendMessage(text)` sends: the argument if truthy, else
      the trimmed input. */
  function Outgoing(st: ChatState, text: Value): Value {
    JsOr(text, if st.input.Some? then Str(Strip(JavaScript, st.input.value)) else Undefined)
  }

  /** `sendMessage(text)` up to its `await`. */
  function Begin(st: ChatState, text: Value, now: string): (r: Sent)
    ensures r.message.Some? <==> !st.processing && JsTruthy(Outgoing(st, text))
    ensures r.message.None? ==> r.st == st
    ensures r.message.Some? ==> r.st.processing && r.message.value == Outgoing(st, text)
                                && r.st.t == Add(st.t, Outgoing(st, text), "user", "normal", now)
                                && r.st.input == (if st.input.Some? then Some("") else None)
  {
    if st.processing then Sent(st, None)
    else
      var message := Outgoing(st, text);
      if !JsTruthy(message) then Sent(st, None)
      else Sent(ChatState(Add(st.t, message, "user", "normal", now), true, if st.input.Some? then Some("") else None), Some(message))
  }

  /** `sendMessage` of build b after its `await`: the reply is handled, an
      exception is replaced by the apology, and `isProcessing` is cleared
      either way. */
  function Finish(b: Build, st: ChatState, reply: Value, now: string): (r: ChatState)
    ensures !r.processing && r.input == st.input
    ensures ResponseStep(b, st.t, reply, now).raised ==> r.t == Add(ResponseStep(b, st.t, reply, now).t, Str(Apology), "ai", "normal", now)
    ensures !ResponseStep(b, st.t, reply, now).raised ==> r.t == ResponseStep(b, st.t, reply, now).t
  {
    var o := ResponseStep(b, st.t, reply, now);
    st.(t := if o.raised then Add(o.t, Str(Apology), "ai", "normal", now) else o.t, processing := false)
  }

  /** While a message is in flight every further send is ignored. */
  lemma SendWhileProcessingIgnored(st: ChatState, text: Value, now: string, text2: Value, now2: string)
    requires Begin(st, text, now).message.Some?
    ensures var b := Begin(st, text, now);
            Begin(b.st, text2, now2) == Sent(b.st, None)
  {
  }

  /** The user's message u sits d places before the end of s, with no user
      message after it. */
  predicate UserAt(s: seq<Message>, d: nat, u: Value) {
    d < |s| && s[|s| - 1 - d].sender == "user" && s[|s| - 1 - d].text == u
    && forall i :: |s| - 1 - d < i < |s| ==> s[i].sender != "user"
  }

  lemma {:induction false} LastUserTextAt(s: seq<Message>, d: nat, u: Value)
    requires UserAt(s, d, u)
    ensures LastUserText(s) == u
    decreases d
  {
    if d > 0 {
      var p := s[..|s| - 1];
      assert s[|s| - 1].sender != "user";
      assert p[|p| - 1 - (d - 1)] == s[|s| - 1 - d];
      assert forall i :: |p| - 1 - (d - 1) < i < |p| ==> p[i] == s[i];
      LastUserTextAt(p, d - 1, u);
    }
  }

  /** An appended message that is not the user's moves the user's message
      one place back. */
  lemma UserAtAfterAppend(s: seq<Message>, m: Message, d: nat, u: Value)
    requires UserAt(s, d, u) && m.sender != "user"
    ensures UserAt(s + [m], d + 1, u)
  {
    var h := s + [m];
    assert h[|h| - 1 - (d + 1)] == s[|s| - 1 - d];
    forall i | |h| - 1 - (d + 1) < i < |h|
      ensures h[i].sender != "user"
    {
      if i < |s| { assert h[i] == s[i]; }
    }
  }

  /** Dropping older messages keeps the user's message while it is still
      within the kept suffix. */
  lemma UserAtInSuffix(h: seq<Message>, k: nat, d: nat, u: Value)
    requires UserAt(h, d, u) && k <= |h| && d < |h| - k
    ensures UserAt(h[k..], d, u)
  {
    var r := h[k..];
    assert r[|r| - 1 - d] == h[|h| - 1 - d];
    forall i | |r| - 1 - d < i < |r|
      ensures r[i].sender != "user"
    {
      assert r[i] == h[k + i];
    }
  }

  lemma AddKeepsUser(t: Transcript, text: Value, kind: string, now: string, d: nat, u: Value)
    requires t.shown && UserAt(t.messages, d, u) && d + 2 <= MessageCap
    ensures UserAt(Add(t, text, "ai", kind, now).messages, d + 1, u)
  {
    var s := t.messages;
    var m := Message(text, "ai", kind, now);
    var h := s + [m];
    var r := Append(s, m);
    assert r == h[|h| - |r|..];
    UserAtAfterAppend(s, m, d, u);
    UserAtInSuffix(h, |h| - |r|, d + 1, u);
  }

  /** Handling the data of a reply keeps the user's message within reach:
      the conversation the corrected build saves names it. */
  lemma RecordReplyNamesUser(brk: string, t: Transcript, data: Value, now: string, u: Value)
    requires t.shown && UserAt(t.messages, 0, u)
    requires !RecordReply(Corrected, brk, t, data, now).raised
    ensures Prop(RecordReply(Corrected, brk, t, data, now).t.saved[0], "userMessage") == JsOr(u, Str(""))
  {
    var d1: nat := 0;
    var t1 := t;
    if JsTruthy(Prop(data, "response")) {
      AddKeepsUser(t, Prop(data, "response"), "normal", now, 0, u);
      t1 := Add(t, Prop(data, "response"), "ai", "normal", now);
      d1 := 1;
    }
    assert UserAt(t1.messages, d1, u);
    var o := if JsTruthy(Prop(data, "action_result")) then ShowActionResult(t1, Prop(data, "action_result"), brk, now) else Outcome(t1, false);
    if JsTruthy(Prop(data, "action_result")) {
      match ActionNote(Prop(data, "action_result"), brk)
      case Ok(None) =>
        LastUserTextAt(o.t.messages, d1, u);
      case Ok(Some(n)) =>
        AddKeepsUser(t1, n.text, n.kind, now, d1, u);
        LastUserTextAt(o.t.messages, d1 + 1, u);
    } else {
      LastUserTextAt(o.t.messages, d1, u);
    }
    assert LastUserText(o.t.messages) == u;
  }

  /** In the corrected build the message just sent is the userMessage of
      the conversation that its reply saves, whatever the reply adds before
      the save. */
  lemma SavedConversationNamesSender(st: ChatState, text: Value, now: string, reply: Value, now2: string)
    requires st.t.shown && Begin(st, text, now).message.Some?
    requires JsTruthy(reply) && JsTruthy(Prop(reply, "data"))
    requires !ResponseStep(Corrected, Begin(st, text, now).st.t, reply, now2).raised
    ensures var b := Begin(st, text, now);
            var f := Finish(Corrected, b.st, reply, now2);
            Prop(f.t.saved[0], "userMessage") == b.message.value
  {
    var b := Begin(st, text, now);
    var u := b.message.value;
    assert UserAt(b.st.t.messages, 0, u);
    RecordReplyNamesUser(Break, b.st.t, Prop(reply, "data"), now2, u);
  }

  /** As written, a reply with a response and an action result that adds a
      message saves the AI response as the userMessage: the next-to-last
      message is then the response. */
  lemma RecordReplyAsWrittenNamesResponse(brk: string, t: Transcript, data: Value, now: string)
    requires t.shown && JsTruthy(Prop(data, "response")) && JsTruthy(Prop(data, "action_result"))
    requires ActionNote(Prop(data, "action_result"), brk).Ok?
    ensures var r := RecordReply(AsWritten, brk, t, data, now);
            !r.raised && Prop(r.t.saved[0], "userMessage") == Prop(data, "response")
  {
    var t1 := Add(t, Prop(data, "response"), "ai", "normal", now);
    var note := ActionNote(Prop(data, "action_result"), brk).value.value;
    var t2 := Add(t1, note.text, "ai", note.kind, now);
    var m := t2.messages;
    assert |m| >= 2 && m[|m| - 2] == t1.messages[|t1.messages| - 1] by {
      assert m == Last(t1.messages + [Message(note.text, "ai", note.kind, now)], MessageCap);
    }
    assert UserMessageAsWritten(m) == Prop(data, "response");
  }

  /** As written, the sender's message is lost from the saved conversation
      whenever the reply has a response and an action result that adds a
      message. */
  lemma SavedConversationAsWrittenNamesResponse(st: ChatState, text: Value, now: string, reply: Value, now2: string)
    requires st.t.shown && Begin(st, text, now).message.Some?
    requires JsTruthy(reply) && JsTruthy(Prop(reply, "data"))
    requires var data := Prop(reply, "data");
             JsTruthy(Prop(data, "response")) && JsTruthy(Prop(data, "action_result"))
             && ActionNote(Prop(data, "action_result"), WrittenBreak).Ok?
    ensures var f := Finish(AsWritten, Begin(st, text, now).st, reply, now2);
            Prop(f.t.saved[0], "userMessage") == Prop(Prop(reply, "data"), "response")
  {
    RecordReplyAsWrittenNamesResponse(WrittenBreak, Begin(st, text, now).st.t, Prop(reply, "data"), now2);
  }

  /** As written, the saved userMessage is the next-to-last message. When a
      reply has both a response and an action result, that is the AI
      response and not what the user typed. */
  lemma UserMessageAsWrittenIsReply()
    ensures var u := Message(Str("hi"), "user", "normal", "t0");
            var a := Message(Str("Done."), "ai", "normal", "t1");
            var n := Message(Str("Alarm set"), "ai", "success", "t1");
            UserMessageAsWritten([u, a, n]) == Str("Done.") && UserMessage([u, a, n]) == Str("hi")
  {
    var u := Message(Str("hi"), "user", "normal", "t0");
    var a := Message(Str("Done."), "ai", "normal", "t1");
    var n := Message(Str("Alarm set"), "ai", "success", "t1");
    assert [u, a, n][..2] == [u, a];
    assert [u, a][..1] == [u];
    assert LastUserText([u]) == Str("hi");
    assert LastUserText([u, a]) == Str("hi");
    assert LastUserText([u, a, n]) == Str("hi");
  }

  /** A quick action sends its prompt when idle; an unknown key sends nothing. */
  lemma QuickActionSends(st: ChatState, action: string, now: string)
    requires !st.processing
    ensures var p := QuickPrompt(action);
            && (p.Some? ==> Begin(st, Str(p.value), now).message == Some(Str(p.value)))
            && (p.None? ==> action !in {"create_document", "find_files", "set_alarm", "get_system_info"})
  {
  }

  // ------------------------------------------------------------ the class

  class ChatManager {
    /** Whether the class follows chat.js as written or corrected. */
    const build: Build
    const hasChatElement: bool
    var messageHistory: seq<Message>
    var isProcessing: bool
    var input: Option<string>
    var savedHistory: seq<Value>

    function Snap(): ChatState
      reads this
    {
      ChatState(Transcript(hasChatElement, messageHistory, savedHistory), isProcessing, input)
    }

    constructor(build: Build, hasChatElement: bool, input: Option<string>, savedHistory: seq<Value>)
      ensures this.build == build
      ensures Snap() == ChatState(Transcript(hasChatElement, [], savedHistory), false, input)
    {
      this.build := build;
      this.hasChatElement := hasChatElement;
      this.messageHistory := [];
      this.isProcessing := false;
      this.input := input;
      this.savedHistory := savedHistory;
    }

    method AddMessage(text: Value, sender: string, kind: string, now: string)
      modifies this
      ensures Snap() == old(Snap()).(t := Add(old(Snap()).t, text, sender, kind, now))
    {
      if !hasChatElement {
        return;
      }
      messageHistory := messageHistory + [Message(text, sender, kind, now)];
      if |messageHistory| > MessageCap {
        messageHistory := messageHistory[|messageHistory| - MessageCap..];
      }
    }

    method SaveToHistory(conversation: Value)
      modifies this
      ensures Snap() == old(Snap()).(t := Save(old(Snap()).t, conversation))
    {
      var history := [conversation] + savedHistory;
      savedHistory := history[..Min(|history|, ConversationCap)];
    }

    method HandleActionResult(result: Value, now: string) returns (raised: bool)
      modifies this
      ensures Snap() == old(Snap()).(t := ShowActionResult(old(Snap()).t, result, BreakOf(build), now).t)
      ensures raised == ShowActionResult(old(Snap()).t, result, BreakOf(build), now).raised
    {
      var note := ActionNote(result, BreakOf(build));
      if note.Raised? {
        return true;
      }
      raised := false;
      if note.value.Some? {
        AddMessage(note.value.value.text, "ai", note.value.value.kind, now);
      }
    }

    method HandleResponse(response: Value, now: string) returns (raised: bool)
      modifies this
      ensures Snap() == old(Snap()).(t := ResponseStep(build, old(Snap()).t, response, now).t)
      ensures raised == ResponseStep(build, old(Snap()).t, response, now).raised
    {
      raised := false;
      if JsTruthy(response) && JsTruthy(Prop(response, "data")) {
        var data := Prop(response, "data");
        if JsTruthy(Prop(data, "response")) {
          AddMessage(Prop(data, "response"), "ai", "normal", now);
        }
        if JsTruthy(Prop(data, "action_result")) {
          raised := HandleActionResult(Prop(data, "action_result"), now);
          if raised {
            return;
          }
        }
        SaveToHistory(Conversation(now, SavedUser(build, messageHistory), data));
      } else if JsTruthy(response) && JsTruthy(Prop(response, "response")) {
        AddMessage(Prop(response, "response"), "ai", "normal", now);
      } else {
        AddMessage(Str(Rephrase), "ai", "normal", now);
      }
    }

    /** `sendMessage(text)` up to its `await`; returns what it sends. */
    method SendMessage(text: Value, now: string) returns (message: Option<Value>)
      modifies this
      ensures Snap() == Begin(old(Snap()), text, now).st
      ensures message == Begin(old(Snap()), text, now).message
    {
      if isProcessing {
        return None;
      }
      var m := Outgoing(Snap(), text);
      if !JsTruthy(m) {
        return None;
      }
      isProcessing := true;
      if input.Some? {
        input := Some("");
      }
      AddMessage(m, "user", "normal", now);
      message := Some(m);
    }

    /** `sendMessage` once the IPC call resolves with `reply`. */
    method ResumeSend(reply: Value, now: string)
      modifies this
      ensures Snap() == Finish(build, old(Snap()), reply, now)
    {
      var raised := HandleResponse(reply, now);
      if raised {
        AddMessage(Str(Apology), "ai", "normal", now);
      }
      isProcessing := false;
    }

    method HandleQuickAction(action: string, now: string) returns (message: Option<Value>)
      modifies this
      ensures QuickPrompt(action).None? ==> Snap() == old(Snap()) && message.None?
      ensures QuickPrompt(action).Some? ==>
                Snap() == Begin(old(Snap()), Str(QuickPrompt(action).value), now).st
                && message == Begin(old(Snap()), Str(QuickPrompt(action).value), now).message
    {
      var prompt := QuickPrompt(action);
      message := None;
      if prompt.Some? {
        message := SendMessage(Str(prompt.value), now);
      }
    }
  }
}
