/**
 * The per-line logic of the streaming event interpreter: what one decoded line
 * of the agent's `stream-json` output does to the running text and tool
 * counter, and what it displays. The loop over the output is
 * `Runner.LoopRunner.HandleStreamingOutput`.
 */
module Stream {
  import opened Wrappers
  import opened Errors
  import opened Json

  datatype ToolOp = Write | Read

  /** What the interpreter prints, without the wording and the wall-clock time. */
  datatype Display =
    | ModelInfo(model: JsonValue)                                // "Using model: ..."
    | Progress(chars: nat)                                       // "Generating: n chars"
    | ToolStart(number: nat, op: ToolOp, path: JsonValue)        // "Tool #n: Creating/Reading path"
    | Created(lines: JsonValue, size: JsonValue)                 // "Created n lines (s bytes)"
    | ReadLines(lines: JsonValue)                                // "Read n lines"
    | Summary(durationMs: JsonValue, tools: nat, chars: nat)     // "Completed in ..." and final stats
  {
    predicate HasCount() { Progress? || Summary? }
    function Count(): nat requires HasCount() { chars }
  }

  /** `accumulated_text` and `tool_count` */
  datatype StreamState = StreamState(text: string, tools: nat)

  const Init := StreamState("", 0)

  datatype Emit = Emit(st: StreamState, out: seq<Display>)

  /** The event's `type` and `subtype`, defaulting to "". */
  function EventType(fields: map<string, JsonValue>): JsonValue { GetOr(fields, "type", JStr("")) }
  function Subtype(fields: map<string, JsonValue>): JsonValue { GetOr(fields, "subtype", JStr("")) }

  predicate IsToolStart(data: JsonValue)
  {
    data.JObj? && EventType(data.fields) == JStr("tool_call") && Subtype(data.fields) == JStr("started")
  }

  predicate IsAssistant(data: JsonValue)
  {
    data.JObj? && EventType(data.fields) == JStr("assistant")
  }

  /**
   * What an `assistant` event adds to the accumulated text: the `text` of the
   * first element of `message.content`, when the content is a list whose first
   * element is a dict holding a string there; nothing for any other event.
   */
  function AssistantText(data: JsonValue): string
  {
    if !IsAssistant(data) then ""
    else match GetOr(data.fields, "message", JObj(map[]))
      case JObj(message) =>
        (match GetOr(message, "content", JArr([]))
         case JArr(items) =>
           if |items| > 0 && items[0].JObj? then
             match GetOr(items[0].fields, "text", JStr(""))
             case JStr(text) => text
             case _ => ""
           else ""
         case _ => "")
      case _ => ""
  }

  /** A `tool_call` event of subtype `started` or `completed`, the only tool events that look inside `tool_call`. */
  predicate IsToolEvent(data: JsonValue)
  {
    data.JObj? && EventType(data.fields) == JStr("tool_call")
    && (Subtype(data.fields) == JStr("started") || Subtype(data.fields) == JStr("completed"))
  }

  /** `fields[key]` is absent or a dict, so `fields.get(key, {})` is a dict. */
  predicate DictOrAbsent(fields: map<string, JsonValue>, key: string)
  {
    key in fields ==> fields[key].JObj?
  }

  /**
   * An `assistant` event of the documented shape: `message` is a dict, its
   * `content` a list, and the `text` of a first element that is a dict a
   * string (each may be absent).
   */
  predicate WellShapedAssistant(fields: map<string, JsonValue>)
  {
    && DictOrAbsent(fields, "message")
    && var message := GetOr(fields, "message", JObj(map[])).fields;
       && ("content" in message ==> message["content"].JArr?)
       && var items := GetOr(message, "content", JArr([])).items;
          (|items| > 0 && items[0].JObj? && "text" in items[0].fields ==> items[0].fields["text"].JStr?)
  }

  /** A `writeToolCall` or `readToolCall` entry: a dict whose `args`, `result` and `result["success"]` are dicts. */
  predicate WellShapedCall(call: JsonValue)
  {
    && call.JObj?
    && DictOrAbsent(call.fields, "args")
    && DictOrAbsent(call.fields, "result")
    && ("result" in call.fields ==> DictOrAbsent(call.fields["result"].fields, "success"))
  }

  /** A `tool_call` event of the documented shape: `tool_call` is a dict of well-shaped entries. */
  predicate WellShapedToolCall(fields: map<string, JsonValue>)
  {
    && DictOrAbsent(fields, "tool_call")
    && var toolCall := GetOr(fields, "tool_call", JObj(map[])).fields;
       && ("writeToolCall" in toolCall ==> WellShapedCall(toolCall["writeToolCall"]))
       && ("readToolCall" in toolCall ==> WellShapedCall(toolCall["readToolCall"]))
  }

  /** A dict event whose nested values, where the loop looks into them, have the documented shapes. */
  predicate WellShaped(data: JsonValue)
  {
    && data.JObj?
    && (IsAssistant(data) ==> WellShapedAssistant(data.fields))
    && (IsToolEvent(data) ==> WellShapedToolCall(data.fields))
  }

  /** `tool_call[key].get("args", {}).get("path", "unknown")` */
  function ToolPath(toolCall: JsonValue, key: string): Result<JsonValue, Exc>
  {
    var call :- Subscript(toolCall, key);
    var args :- Get(call, "args", JObj(map[]));
    Get(args, "path", JStr("unknown"))
  }

  /** `tool_call[key].get("result", {})["success"]` when present. */
  function ToolSuccess(toolCall: JsonValue, key: string): Result<Option<JsonValue>, Exc>
  {
    var call :- Subscript(toolCall, key);
    var result :- Get(call, "result", JObj(map[]));
    var has :- Contains(result, "success");
    if has then
      var success :- Subscript(result, "success");
      Ok(Some(success))
    else Ok(None)
  }

  /** An `assistant` event: append the first content element's non-empty `text`. */
  function AssistantStep(st: StreamState, fields: map<string, JsonValue>): (r: Result<Emit, Exc>)
    requires EventType(fields) == JStr("assistant")
    ensures WellShapedAssistant(fields) ==> r.Ok?
    ensures r.Err? ==> IsShapeError(r.error)
    ensures r.Ok? ==> r.value.st == st.(text := st.text + AssistantText(JObj(fields)))
    ensures r.Ok? ==> forall i :: 0 <= i < |r.value.out| ==> r.value.out[i] == Progress(|r.value.st.text|)
  {
    var message := GetOr(fields, "message", JObj(map[]));
    var content :- Get(message, "content", JArr([]));
    if !Truthy(content) then Ok(Emit(st, []))
    else
      var first :- First(content);
      if !first.JObj? then Ok(Emit(st, []))
      else
        var text := GetOr(first.fields, "text", JStr(""));
        if !Truthy(text) then Ok(Emit(st, []))
        else if !text.JStr? then Err(TypeError)
        else
          var st' := st.(text := st.text + text.s);
          Ok(Emit(st', [Progress(|st'.text|)]))
  }

  /** A `tool_call` event with subtype `started`: count it, then show what it touches. */
  function ToolStartedStep(st: StreamState, fields: map<string, JsonValue>): (r: Result<Emit, Exc>)
    ensures WellShapedToolCall(fields) ==> r.Ok?
    ensures r.Err? ==> IsShapeError(r.error)
    ensures r.Ok? ==> r.value.st == st.(tools := st.tools + 1)
    ensures r.Ok? ==> forall i :: 0 <= i < |r.value.out| ==> !r.value.out[i].HasCount()
  {
    var st' := st.(tools := st.tools + 1);
    var toolCall := GetOr(fields, "tool_call", JObj(map[]));
    var isWrite :- Contains(toolCall, "writeToolCall");
    if isWrite then
      var path :- ToolPath(toolCall, "writeToolCall");
      Ok(Emit(st', [ToolStart(st'.tools, Write, path)]))
    else
      var isRead :- Contains(toolCall, "readToolCall");
      if isRead then
        var path :- ToolPath(toolCall, "readToolCall");
        Ok(Emit(st', [ToolStart(st'.tools, Read, path)]))
      else Ok(Emit(st', []))
  }

  /** A `tool_call` event with subtype `completed`: show the outcome of a write or read. */
  function ToolCompletedStep(st: StreamState, fields: map<string, JsonValue>): (r: Result<Emit, Exc>)
    ensures WellShapedToolCall(fields) ==> r.Ok?
    ensures r.Err? ==> IsShapeError(r.error)
    ensures r.Ok? ==> r.value.st == st
    ensures r.Ok? ==> forall i :: 0 <= i < |r.value.out| ==> !r.value.out[i].HasCount()
  {
    var toolCall := GetOr(fields, "tool_call", JObj(map[]));
    var isWrite :- Contains(toolCall, "writeToolCall");
    if isWrite then
      var success :- ToolSuccess(toolCall, "writeToolCall");
      if success.None? then Ok(Emit(st, []))
      else
        var lines :- Get(success.value, "linesCreated", JNum(0));
        var size := GetOr(success.value.fields, "fileSize", JNum(0));  // the first `get` showed a dict
        Ok(Emit(st, [Created(lines, size)]))
    else
      var isRead := Contains(toolCall, "readToolCall").value;  // the first `in` did not raise
      if !isRead then Ok(Emit(st, []))
      else
        var success :- ToolSuccess(toolCall, "readToolCall");
        if success.None? then Ok(Emit(st, []))
        else
          var lines :- Get(success.value, "totalLines", JNum(0));
          Ok(Emit(st, [ReadLines(lines)]))
  }

  /**
   * One truthy decoded line. A value other than a dict has no `get`
   * (AttributeError); malformed nested values raise the error Python raises.
   */
  function Step(st: StreamState, data: JsonValue): (r: Result<Emit, Exc>)
    ensures !data.JObj? ==> r == Err(AttributeError)
    ensures data.JObj? && !IsAssistant(data) && !IsToolEvent(data) ==> r.Ok?
    ensures WellShaped(data) ==> r.Ok?
    ensures r.Err? ==> IsShapeError(r.error)
    ensures r.Ok? ==> r.value.st.tools == st.tools + (if IsToolStart(data) then 1 else 0)
    ensures r.Ok? ==> r.value.st.text == st.text + AssistantText(data)
    ensures r.Ok? ==> forall i :: 0 <= i < |r.value.out| && r.value.out[i].HasCount() ==>
                        |st.text| <= r.value.out[i].Count() == |r.value.st.text|
  {
    if !data.JObj? then Err(AttributeError)
    else
      var fields := data.fields;
      var eventType := EventType(fields);
      var subtype := Subtype(fields);
      if eventType == JStr("system") && subtype == JStr("init") then
        Ok(Emit(st, [ModelInfo(GetOr(fields, "model", JStr("unknown")))]))
      else if eventType == JStr("assistant") then
        AssistantStep(st, fields)
      else if eventType == JStr("tool_call") then
        if subtype == JStr("started") then ToolStartedStep(st, fields)
        else if subtype == JStr("completed") then ToolCompletedStep(st, fields)
        else Ok(Emit(st, []))
      else if eventType == JStr("result") then
        Ok(Emit(st, [Summary(GetOr(fields, "duration_ms", JNum(0)), st.tools, |st.text|)]))
      else Ok(Emit(st, []))
  }

  /** `if not data: continue` -- undecodable lines and falsy values are skipped. */
  predicate Skipped(line: Option<JsonValue>)
  {
    line.None? || !Truthy(line.value)
  }

  /** The interpreter's locals and what it has shown; `crash` is the exception that ended it. */
  datatype Trace = Trace(st: StreamState, shown: seq<Display>, crash: Option<Exc>)

  const Start := Trace(Init, [], None)

  /** One line of output, read by the loop of `_handle_streaming_output`. */
  function Continue(t: Trace, line: Option<JsonValue>): Trace
  {
    if t.crash.Some? || Skipped(line) then t
    else match Step(t.st, line.value)
      case Err(e) => Trace(t.st, t.shown, Some(e))
      case Ok(emit) => Trace(emit.st, t.shown + emit.out, None)
  }

  /** The lines, one after the other. */
  function Interpret(t: Trace, lines: seq<Option<JsonValue>>): Trace
    decreases |lines|
  {
    if |lines| == 0 then t else Continue(Interpret(t, lines[..|lines| - 1]), lines[|lines| - 1])
  }

  /** Interpreting in two parts is interpreting the whole. */
  lemma {:induction false} InterpretAppend(t: Trace, a: seq<Option<JsonValue>>, b: seq<Option<JsonValue>>)
    ensures Interpret(t, a + b) == Interpret(Interpret(t, a), b)
    decreases |b|
  {
    if |b| == 0 {
      assert a + b == a;
    } else {
      assert (a + b)[..|a + b| - 1] == a + b[..|b| - 1];
      InterpretAppend(t, a, b[..|b| - 1]);
    }
  }

  /** After an exception nothing more is interpreted. */
  lemma {:induction false} CrashIsFinal(t: Trace, lines: seq<Option<JsonValue>>)
    requires t.crash.Some?
    ensures Interpret(t, lines) == t
    decreases |lines|
  {
    if |lines| > 0 {
      CrashIsFinal(t, lines[..|lines| - 1]);
    }
  }

  /** Every exception the interpreter stops on is a shape error raised by a lookup on the event. */
  lemma {:induction false} CrashesAreShapeErrors(t: Trace, lines: seq<Option<JsonValue>>)
    requires t.crash.None? || IsShapeError(t.crash.value)
    ensures var u := Interpret(t, lines); u.crash.None? || IsShapeError(u.crash.value)
    decreases |lines|
  {
    if |lines| > 0 {
      CrashesAreShapeErrors(t, lines[..|lines| - 1]);
    }
  }

  /** A skipped line changes nothing, and the lines after it are interpreted as if it were absent. */
  lemma {:induction false} SkippedLineIsInvisible(t: Trace, a: seq<Option<JsonValue>>, line: Option<JsonValue>,
                                                 b: seq<Option<JsonValue>>)
    requires Skipped(line)
    ensures Interpret(t, a + [line] + b) == Interpret(t, a + b)
  {
    InterpretAppend(t, a + [line], b);
    InterpretAppend(t, a, b);
    assert (a + [line])[..|a + [line]| - 1] == a;
  }

  /** Lines of the stream that are `tool_call`/`started` events. */
  function CountToolStarts(lines: seq<Option<JsonValue>>): nat
    decreases |lines|
  {
    if |lines| == 0 then 0
    else
      var last := lines[|lines| - 1];
      CountToolStarts(lines[..|lines| - 1]) + (if !Skipped(last) && IsToolStart(last.value) then 1 else 0)
  }

  /** Without an exception, the tool counter rises by exactly the number of `tool_call`/`started` events. */
  lemma {:induction false} ToolCountIsStartedEvents(t: Trace, lines: seq<Option<JsonValue>>)
    requires t.crash.None? && Interpret(t, lines).crash.None?
    ensures Interpret(t, lines).st.tools == t.st.tools + CountToolStarts(lines)
    decreases |lines|
  {
    if |lines| > 0 {
      ToolCountIsStartedEvents(t, lines[..|lines| - 1]);
    }
  }

  /** The texts the stream's `assistant` events carry, concatenated in order. */
  function AssistantTexts(lines: seq<Option<JsonValue>>): string
    decreases |lines|
  {
    if |lines| == 0 then ""
    else
      var last := lines[|lines| - 1];
      AssistantTexts(lines[..|lines| - 1]) + (if Skipped(last) then "" else AssistantText(last.value))
  }

  /** Without an exception, the accumulated text grows by exactly the texts of the `assistant` events. */
  lemma {:induction false} TextIsAssistantTexts(t: Trace, lines: seq<Option<JsonValue>>)
    requires t.crash.None? && Interpret(t, lines).crash.None?
    ensures Interpret(t, lines).st.text == t.st.text + AssistantTexts(lines)
    decreases |lines|
  {
    if |lines| > 0 {
      var init, line := lines[..|lines| - 1], lines[|lines| - 1];
      var before := Interpret(t, init);
      TextIsAssistantTexts(t, init);
      ContinueCounters(before, line);
      var added := if Skipped(line) then "" else AssistantText(line.value);
      assert AssistantTexts(lines) == AssistantTexts(init) + added;
      assert t.st.text + AssistantTexts(init) + added == t.st.text + (AssistantTexts(init) + added);
    }
  }

  /** One line that does not raise adds its `assistant` text and counts a `tool_call`/`started` event. */
  lemma ContinueCounters(t: Trace, line: Option<JsonValue>)
    requires t.crash.None? && Continue(t, line).crash.None?
    ensures Continue(t, line).st.text == t.st.text + (if Skipped(line) then "" else AssistantText(line.value))
    ensures Continue(t, line).st.tools == t.st.tools + (if !Skipped(line) && IsToolStart(line.value) then 1 else 0)
  {
  }

  /** How many leading lines are interpreted before an event raises: all of them when none does. */
  function Clean(t: Trace, lines: seq<Option<JsonValue>>): (k: nat)
    ensures k <= |lines|
    decreases |lines|
  {
    if |lines| == 0 || Interpret(t, lines).crash.None? then |lines| else Clean(t, lines[..|lines| - 1])
  }

  /**
   * The interpretation ends with the counters it had after the clean prefix:
   * an event that raises leaves them as they were, and nothing after it is read.
   */
  lemma {:induction false} StateAtCrash(t: Trace, lines: seq<Option<JsonValue>>)
    requires t.crash.None?
    ensures Interpret(t, lines[..Clean(t, lines)]).crash.None?
    ensures Interpret(t, lines).st == Interpret(t, lines[..Clean(t, lines)]).st
    ensures Interpret(t, lines).crash.None? <==> Clean(t, lines) == |lines|
    decreases |lines|
  {
    if |lines| == 0 {
      assert lines[..0] == lines;
    } else if Interpret(t, lines).crash.None? {
      assert lines[..|lines|] == lines;
    } else {
      var init := lines[..|lines| - 1];
      StateAtCrash(t, init);
      assert init[..Clean(t, init)] == lines[..Clean(t, lines)];
    }
  }

  /**
   * Whether or not an event raises, the final text is the old text followed by
   * the `assistant` texts, and the tool count rises by the `tool_call`/`started`
   * events, both over the lines read before the exception.
   */
  lemma StreamCounters(t: Trace, lines: seq<Option<JsonValue>>)
    requires t.crash.None?
    ensures var k := Clean(t, lines);
            && Interpret(t, lines).st.text == t.st.text + AssistantTexts(lines[..k])
            && Interpret(t, lines).st.tools == t.st.tools + CountToolStarts(lines[..k])
  {
    StateAtCrash(t, lines);
    TextIsAssistantTexts(t, lines[..Clean(t, lines)]);
    ToolCountIsStartedEvents(t, lines[..Clean(t, lines)]);
  }

  /**
   * A stream whose events all have the documented shapes is read to the end:
   * the text grows by every `assistant` text and the tool count by every
   * `tool_call`/`started` event.
   */
  lemma {:induction false} WellShapedStream(t: Trace, lines: seq<Option<JsonValue>>)
    requires t.crash.None?
    requires forall i :: 0 <= i < |lines| && !Skipped(lines[i]) ==> WellShaped(lines[i].value)
    ensures Interpret(t, lines).crash.None?
    ensures Interpret(t, lines).st.text == t.st.text + AssistantTexts(lines)
    ensures Interpret(t, lines).st.tools == t.st.tools + CountToolStarts(lines)
    decreases |lines|
  {
    if |lines| > 0 {
      WellShapedStream(t, lines[..|lines| - 1]);
    }
    TextIsAssistantTexts(t, lines);
    ToolCountIsStartedEvents(t, lines);
  }

  /**
   * The character counts shown are in non-decreasing order, and none exceeds
   * the length of the accumulated text.
   */
  predicate CountsOrdered(shown: seq<Display>, n: nat)
  {
    && (forall i, j :: 0 <= i < j < |shown| && shown[i].HasCount() && shown[j].HasCount() ==>
          shown[i].Count() <= shown[j].Count())
    && (forall i :: 0 <= i < |shown| && shown[i].HasCount() ==> shown[i].Count() <= n)
  }

  /** Every line keeps the displayed character counts ordered: the reported count never decreases. */
  lemma {:induction false} ShownCountsNeverDecrease(t: Trace, lines: seq<Option<JsonValue>>)
    requires CountsOrdered(t.shown, |t.st.text|)
    ensures CountsOrdered(Interpret(t, lines).shown, |Interpret(t, lines).st.text|)
    decreases |lines|
  {
    if |lines| > 0 {
      var before := Interpret(t, lines[..|lines| - 1]);
      ShownCountsNeverDecrease(t, lines[..|lines| - 1]);
      var line := lines[|lines| - 1];
      if before.crash.None? && !Skipped(line) {
        var r := Step(before.st, line.value);
        if r.Ok? {
          var s := before.shown + r.value.out;
          forall i, j | 0 <= i < j < |s| && s[i].HasCount() && s[j].HasCount()
            ensures s[i].Count() <= s[j].Count()
          {
            if j >= |before.shown| {
              assert s[j] == r.value.out[j - |before.shown|];
              if i < |before.shown| {
                assert s[i] == before.shown[i];
              } else {
                assert s[i] == r.value.out[i - |before.shown|];
              }
            }
          }
          forall i | 0 <= i < |s| && s[i].HasCount()
            ensures s[i].Count() <= |r.value.st.text|
          {
            if i >= |before.shown| {
              assert s[i] == r.value.out[i - |before.shown|];
            } else {
              assert |before.st.text| <= |r.value.st.text| by {
                assert r.value.st.text == before.st.text + AssistantText(line.value);
              }
            }
          }
        }
      }
    }
  }
}
