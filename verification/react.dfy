/** The ReAct step shared, line for line, by the function-calling agent and
    the MCP client: decode a model reply, stop on `final_answer`, otherwise
    run every requested action through a name-to-tool lookup and append one
    history record per action; plus the labelled history text the next
    prompt carries, and the unbounded `while True` loop driven by a finite
    sequence of model replies. */
module ReAct {
  import opened Common
  import opened Text
  import opened Json

  // ---------------------------------------------------------------------
  // Model replies and tools
  // ---------------------------------------------------------------------

  /** One answer of the language model: its text, or the message of the
      exception the client call raised. */
  datatype Reply = Completion(text: string) | CallFailed(message: string)

  /** `_get_openai_response`: a failed call is turned into text. */
  function ReplyText(r: Reply): string {
    match r
    case Completion(t) => t
    case CallFailed(m) => "Error generating response: " + m
  }

  /** The text of a failed model call is never JSON, so it always takes the
      decode-failure exit. */
  lemma CallFailureUndecodable(loads: Loads, m: string)
    requires RejectsNonValueStart(loads)
    ensures loads(ReplyText(CallFailed(m))).DecodeError?
  {
    var t := ReplyText(CallFailed(m));
    assert t[0] == 'E';
  }

  /** What a tool call does: return text, or raise with a message. */
  datatype ToolResult = Returned(text: string) | Raised(message: string)

  type Tool = Json -> ToolResult

  /** How `run` resolves a tool name. `Attributes(find)` is
      `getattr(self.tools, name, None)` filtered by `callable`; `Missing` is
      an agent on which `self.tools` was never assigned. */
  datatype ToolTable = Attributes(find: string -> Option<Tool>) | Missing

  const MissingFields := "Missing tool_choice/tool_input"
  const NoToolsAttribute := "AttributeError: 'ReActAgent' object has no attribute 'tools'"

  function UnknownTool(name: string): string {
    "Unknown tool '" + name + "'"
  }

  function ToolRuntimeError(message: string): string {
    "Tool runtime error: " + message
  }

  function ParseFailure(error: string, text: string): string {
    "Could not parse LLM JSON: " + error + "\nRaw: " + text
  }

  /** The dispatch of one complete action. It raises only when the agent
      has no `tools` attribute or the name is not a string (`getattr`
      rejects it); otherwise an unknown name and a raising tool both become
      observation text. */
  function Dispatch(tools: ToolTable, name: Json, input: Json): (r: Result<string>)
    ensures r.Ok? <==> tools.Attributes? && name.JString?
    ensures tools.Missing? ==> r == Err(NoToolsAttribute)
    ensures r.Ok? && tools.find(name.s).None? ==> r.value == UnknownTool(name.s)
    ensures r.Ok? && tools.find(name.s).Some? ==>
              match tools.find(name.s).value(input)
              case Returned(t) => r.value == t
              case Raised(m) => r.value == ToolRuntimeError(m)
  {
    match tools
    case Missing => Err(NoToolsAttribute)
    case Attributes(find) =>
      if !name.JString? then
        Err("TypeError: attribute name must be string, not '" + TypeName(name) + "'")
      else
        match find(name.s)
        case None => Ok(UnknownTool(name.s))
        case Some(tool) =>
          match tool(input)
          case Returned(t) => Ok(t)
          case Raised(m) => Ok(ToolRuntimeError(m))
  }

  /** `not tool_name or tool_input is None`: the action is recorded without
      any tool lookup. An empty-string input does not count as missing. */
  predicate Incomplete(act: Json) {
    !TruthyOpt(Get(act, "tool_choice")) || Get(act, "tool_input").GetOr(JNull) == JNull
  }

  /** The observation recorded for one element of the action list. */
  function Observe(tools: ToolTable, act: Json): (r: Result<string>)
    ensures !act.JObject? ==> r.Err?
    ensures act.JObject? && Incomplete(act) ==> r == Ok(MissingFields)
  {
    if !act.JObject? then
      Err("AttributeError: '" + TypeName(act) + "' object has no attribute 'get'")
    else if Incomplete(act) then
      Ok(MissingFields)
    else
      Dispatch(tools, Get(act, "tool_choice").value, Get(act, "tool_input").value)
  }

  /** An incomplete action never consults the tool table: its observation is
      the same whatever the table holds, even when the agent has none. */
  lemma IncompleteNeedsNoTools(act: Json, t1: ToolTable, t2: ToolTable)
    requires act.JObject? && Incomplete(act)
    ensures Observe(t1, act) == Observe(t2, act) == Ok(MissingFields)
  {
  }

  /** An action with a string name and an empty-string input is dispatched:
      the tool is called with `""`. */
  lemma EmptyInputIsDispatched(find: string -> Option<Tool>, name: string, act: Json)
    requires act.JObject? && name != ""
    requires Get(act, "tool_choice") == Some(JString(name))
    requires Get(act, "tool_input") == Some(JString(""))
    ensures find(name).Some? ==> Observe(Attributes(find), act) == match find(name).value(JString(""))
              case Returned(t) => Ok(t)
              case Raised(m) => Ok(ToolRuntimeError(m))
    ensures find(name).None? ==> Observe(Attributes(find), act) == Ok(UnknownTool(name))
  {
    assert !Incomplete(act);
  }

  // ---------------------------------------------------------------------
  // One step
  // ---------------------------------------------------------------------

  /** The record appended for one action. */
  function Record(thought: Json, act: Json, observation: string, pause: Json): Json {
    JObject([("thought", thought), ("action", act), ("observation", JString(observation)), ("pause", pause)])
  }

  /** The shape of a record the loop appends: an object with exactly the
      keys `thought`, `action`, `observation` and `pause`, in that order,
      whose observation is text. */
  predicate IsRecord(j: Json) {
    && j.JObject? && |j.fields| == 4
    && j.fields[0].0 == "thought" && j.fields[1].0 == "action"
    && j.fields[2].0 == "observation" && j.fields[2].1.JString?
    && j.fields[3].0 == "pause"
  }

  /** What `get` reads from a record: its four fields, and nothing under
      any other key such as `pause_reflection`. */
  lemma RecordGets(j: Json)
    requires IsRecord(j)
    ensures Get(j, "thought") == Some(j.fields[0].1)
    ensures Get(j, "action") == Some(j.fields[1].1)
    ensures Get(j, "observation") == Some(j.fields[2].1)
    ensures Get(j, "pause") == Some(j.fields[3].1)
    ensures forall key :: key !in {"thought", "action", "observation", "pause"} ==> Get(j, key) == None
  {
    var fs := j.fields;
    assert Lookup(fs, "thought") == Some(fs[0].1);
    assert Lookup(fs, "action") == Lookup(fs[1..], "action") == Some(fs[1].1);
    assert Lookup(fs, "observation") == Lookup(fs[1..][1..], "observation") == Some(fs[2].1);
    assert Lookup(fs, "pause") == Lookup(fs[1..], "pause") == Lookup(fs[1..][1..], "pause");
    assert Lookup(fs[1..][1..], "pause") == Lookup(fs[1..][1..][1..], "pause") == Some(fs[3].1);
    forall key | key !in {"thought", "action", "observation", "pause"} ensures Get(j, key) == None {
      GetAbsent(j, key);
    }
  }

  lemma RecordIsRecord(thought: Json, act: Json, observation: string, pause: Json)
    ensures IsRecord(Record(thought, act, observation, pause))
  {
  }

  /** `step.get("thought", "")`. */
  function Thought(step: Json): Json {
    Get(step, "thought").GetOr(JString(""))
  }

  /** `step.get("pause", None)`. */
  function Pause(step: Json): Json {
    Get(step, "pause").GetOr(JNull)
  }

  /** `step.get("action", [])`, with a non-list value wrapped in a list. */
  function Actions(step: Json): seq<Json> {
    match Get(step, "action")
    case None => []
    case Some(JArray(xs)) => xs
    case Some(a) => [a]
  }

  datatype StepResult =
    | Finished(answer: Json)
    | Continued(history: seq<Json>)
    | Unparsable(message: string)
    | StepRaised(error: string)

  /** Every action of the list is handled without raising. */
  predicate AllObserved(tools: ToolTable, acts: seq<Json>) {
    forall i :: 0 <= i < |acts| ==> Observe(tools, acts[i]).Ok?
  }

  /** `e` is what the first action whose handling raises raised. */
  ghost predicate FirstError(tools: ToolTable, acts: seq<Json>, e: string) {
    exists i :: 0 <= i < |acts| && FailsFirstAt(tools, acts, i, e)
  }

  ghost predicate FailsFirstAt(tools: ToolTable, acts: seq<Json>, i: nat, e: string)
    requires i < |acts|
  {
    Observe(tools, acts[i]) == Err(e) && forall k :: 0 <= k < i ==> Observe(tools, acts[k]).Ok?
  }

  /** `h2` is `h1` followed by one record per action, in action order, each
      holding the step's thought and pause and that action's observation. */
  ghost predicate AppendsRecords(h1: seq<Json>, h2: seq<Json>, tools: ToolTable, thought: Json, pause: Json, acts: seq<Json>) {
    && |h2| == |h1| + |acts|
    && h1 <= h2
    && forall i :: 0 <= i < |acts| ==>
         Observe(tools, acts[i]).Ok? && h2[|h1| + i] == Record(thought, acts[i], Observe(tools, acts[i]).value, pause)
  }

  lemma AppendsRecordsCons(h: seq<Json>, h2: seq<Json>, tools: ToolTable, thought: Json, pause: Json, acts: seq<Json>, obs: string)
    requires |acts| > 0 && Observe(tools, acts[0]) == Ok(obs)
    requires AppendsRecords(h + [Record(thought, acts[0], obs, pause)], h2, tools, thought, pause, acts[1..])
    ensures AppendsRecords(h, h2, tools, thought, pause, acts)
  {
    var h1 := h + [Record(thought, acts[0], obs, pause)];
    assert h2[|h|] == h1[|h|];
    forall i | 1 <= i < |acts|
      ensures Observe(tools, acts[i]).Ok? && h2[|h| + i] == Record(thought, acts[i], Observe(tools, acts[i]).value, pause)
    {
      assert acts[i] == acts[1..][i - 1];
      assert |h| + i == |h1| + (i - 1);
    }
  }

  lemma FirstErrorCons(tools: ToolTable, acts: seq<Json>, e: string)
    requires |acts| > 0 && Observe(tools, acts[0]).Ok?
    requires FirstError(tools, acts[1..], e)
    ensures FirstError(tools, acts, e)
  {
    var tail := acts[1..];
    var j :| 0 <= j < |tail| && FailsFirstAt(tools, tail, j, e);
    forall k | 0 <= k < j + 1 ensures Observe(tools, acts[k]).Ok? {
      if k > 0 {
        assert acts[k] == tail[k - 1];
      }
    }
    assert acts[j + 1] == tail[j];
    assert FailsFirstAt(tools, acts, j + 1, e);
  }

  /** The `for act in actions` loop: one record per action, in order, each
      carrying the step's thought and pause, with earlier records kept; it
      stops at the first action whose handling raises. */
  function RunActions(tools: ToolTable, thought: Json, pause: Json, acts: seq<Json>, history: seq<Json>): (r: StepResult)
    ensures r.Continued? || r.StepRaised?
    ensures r.Continued? <==> AllObserved(tools, acts)
    ensures r.Continued? ==> AppendsRecords(history, r.history, tools, thought, pause, acts)
    ensures r.StepRaised? ==> FirstError(tools, acts, r.error)
    decreases acts
  {
    if |acts| == 0 then Continued(history)
    else
      match Observe(tools, acts[0])
      case Err(e) =>
        assert FailsFirstAt(tools, acts, 0, e);
        StepRaised(e)
      case Ok(obs) =>
        var r := RunActions(tools, thought, pause, acts[1..], history + [Record(thought, acts[0], obs, pause)]);
        assert AllObserved(tools, acts) <==> AllObserved(tools, acts[1..]) by {
          assert forall i :: 1 <= i < |acts| ==> acts[i] == acts[1..][i - 1];
        }
        if r.Continued? then
          AppendsRecordsCons(history, r.history, tools, thought, pause, acts, obs);
          r
        else
          FirstErrorCons(tools, acts, r.error);
          r
  }

  /** `step["final_answer"]` on a string holding that substring. */
  const StrIndexError := "TypeError: string indices must be integers, not 'str'"
  /** `step["final_answer"]` on a list holding that string. */
  const ListIndexError := "TypeError: list indices must be integers or slices, not str"

  /** `"final_answer" in step` on a number, a boolean or null. */
  function NotIterable(step: Json): string {
    "TypeError: argument of type '" + TypeName(step) + "' is not iterable"
  }

  /** The exception `run` raises on a decoded step that is not an object:
      `"final_answer" in step` is a type error for numbers, booleans and
      null; for a string or list it is a containment test, after which either
      `step["final_answer"]` or `step.get` fails. */
  function NonObjectStepError(step: Json): string {
    match step
    case JString(s) =>
      if Contains(s, "final_answer") then StrIndexError
      else "AttributeError: 'str' object has no attribute 'get'"
    case JArray(xs) =>
      if JString("final_answer") in xs then ListIndexError
      else "AttributeError: 'list' object has no attribute 'get'"
    case _ => NotIterable(step)
  }

  /** The body of the `while True` loop after the model call: decode, stop on
      `final_answer` whatever else the step holds, otherwise run the actions. */
  function ProcessReply(loads: Loads, tools: ToolTable, text: string, history: seq<Json>): (r: StepResult)
    ensures loads(text).DecodeError? ==> r == Unparsable(ParseFailure(loads(text).message, text))
    ensures loads(text).Parsed? && HasKey(loads(text).value, "final_answer") ==>
              r == Finished(Get(loads(text).value, "final_answer").value)
    ensures loads(text).Parsed? && !loads(text).value.JObject? ==> r.StepRaised?
    ensures r.Continued? ==>
              var step := loads(text).value;
              AppendsRecords(history, r.history, tools, Thought(step), Pause(step), Actions(step))
  {
    match loads(text)
    case DecodeError(e) => Unparsable(ParseFailure(e, text))
    case Parsed(step) =>
      if !step.JObject? then StepRaised(NonObjectStepError(step))
      else if HasKey(step, "final_answer") then Finished(Get(step, "final_answer").value)
      else RunActions(tools, Thought(step), Pause(step), Actions(step), history)
  }

  /** How many records one step appends: none for an absent `action`, one
      per element of a list, and one for any other value (the single-action
      shorthand). */
  lemma ActionShapes(loads: Loads, tools: ToolTable, text: string, history: seq<Json>)
    requires ProcessReply(loads, tools, text, history).Continued?
    ensures var step := loads(text).value;
            var added := |ProcessReply(loads, tools, text, history).history| - |history|;
            && (!HasKey(step, "action") ==> added == 0)
            && (HasKey(step, "action") && Get(step, "action").value.JArray? ==> added == |Get(step, "action").value.items|)
            && (HasKey(step, "action") && !Get(step, "action").value.JArray? ==> added == 1)
  {
  }

  // ---------------------------------------------------------------------
  // History text
  // ---------------------------------------------------------------------

  /** A record the formatter can read: `step['thought']` must exist. */
  predicate Formattable(h: seq<Json>) {
    forall i :: 0 <= i < |h| ==> HasKey(h[i], "thought")
  }

  /** `Action: <json>` when the action is truthy. */
  function ActionLine(v: Option<Json>): string {
    if TruthyOpt(v) then "Action: " + Dumps(v.value, true) + "\n" else ""
  }

  /** `<tag><str(value)>` when the value is truthy. */
  function TextLine(tag: string, v: Option<Json>): string {
    if TruthyOpt(v) then tag + Str(v.value) + "\n" else ""
  }

  /** The text of one record before its pause line: a `Thought:` line
      always, then `Action:` (as JSON) and `Observation:` lines for the
      fields that are truthy. */
  function RecordHead(rec: Json): string
    requires HasKey(rec, "thought")
  {
    "Thought: " + Str(Get(rec, "thought").value) + "\n"
    + ActionLine(Get(rec, "action"))
    + TextLine("Observation: ", Get(rec, "observation"))
  }

  /** The text of one record: its head, then a `PAUSE:` line when the
      value read from `pauseKey` is truthy. */
  function FormatRecord(rec: Json, pauseKey: string): string
    requires HasKey(rec, "thought")
  {
    RecordHead(rec) + TextLine("PAUSE: ", Get(rec, pauseKey))
  }

  /** The texts laid end to end, in order. */
  function Concat(texts: seq<string>): string {
    if |texts| == 0 then "" else Concat(texts[..|texts| - 1]) + texts[|texts| - 1]
  }

  lemma {:induction false} ConcatAppend(a: seq<string>, b: seq<string>)
    ensures Concat(a + b) == Concat(a) + Concat(b)
    decreases |b|
  {
    if |b| == 0 {
      assert a + b == a;
    } else {
      ConcatAppend(a, b[..|b| - 1]);
      assert (a + b)[..|a + b| - 1] == a + b[..|b| - 1];
    }
  }

  /** The text of every record, in log order. */
  function RecordTexts(h: seq<Json>, pauseKey: string): (texts: seq<string>)
    requires Formattable(h)
    ensures |texts| == |h|
    ensures forall i :: 0 <= i < |h| ==> texts[i] == FormatRecord(h[i], pauseKey)
  {
    if |h| == 0 then []
    else
      var rest := RecordTexts(h[1..], pauseKey);
      assert forall i :: 1 <= i < |h| ==> h[i] == h[1..][i - 1];
      [FormatRecord(h[0], pauseKey)] + rest
  }

  /** `_format_thought_history` with the pause read from `pauseKey`: the
      records' texts one after another. */
  function FormatWith(h: seq<Json>, pauseKey: string): string
    requires Formattable(h)
  {
    Concat(RecordTexts(h, pauseKey))
  }

  /** The formatter as written reads the key `pause_reflection`. */
  function FormatHistoryAsWritten(h: seq<Json>): string
    requires Formattable(h)
  {
    FormatWith(h, "pause_reflection")
  }

  /** The formatter reading the key the loop writes, `pause`. */
  function FormatHistory(h: seq<Json>): string
    requires Formattable(h)
  {
    FormatWith(h, "pause")
  }

  /** An empty history renders as nothing. */
  lemma FormatEmpty(h: seq<Json>, pauseKey: string)
    requires |h| == 0
    ensures Formattable(h) && FormatWith(h, pauseKey) == ""
  {
    assert RecordTexts(h, pauseKey) == [];
  }

  /** Records are rendered one after another in log order: formatting a
      longer history extends the text of the shorter one. */
  lemma FormatAppend(h1: seq<Json>, h2: seq<Json>, pauseKey: string)
    requires Formattable(h1) && Formattable(h2)
    ensures Formattable(h1 + h2)
    ensures FormatWith(h1 + h2, pauseKey) == FormatWith(h1, pauseKey) + FormatWith(h2, pauseKey)
  {
    assert Formattable(h1 + h2) by {
      forall i | 0 <= i < |h1 + h2| ensures HasKey((h1 + h2)[i], "thought") {
        if i >= |h1| { assert (h1 + h2)[i] == h2[i - |h1|]; }
      }
    }
    var t1 := RecordTexts(h1, pauseKey);
    var t2 := RecordTexts(h2, pauseKey);
    var t := RecordTexts(h1 + h2, pauseKey);
    forall i | 0 <= i < |t| ensures t[i] == (t1 + t2)[i] {
      if i < |h1| {
        assert (h1 + h2)[i] == h1[i];
      } else {
        assert (h1 + h2)[i] == h2[i - |h1|];
      }
    }
    assert t == t1 + t2;
    ConcatAppend(t1, t2);
  }

  /** A one-record history renders as that record's text. */
  lemma FormatSingle(rec: Json, pauseKey: string)
    requires HasKey(rec, "thought")
    ensures Formattable([rec])
    ensures FormatWith([rec], pauseKey) == FormatRecord(rec, pauseKey)
  {
    assert RecordTexts([rec], pauseKey) == [FormatRecord(rec, pauseKey)];
    assert Concat([FormatRecord(rec, pauseKey)]) == Concat([]) + FormatRecord(rec, pauseKey);
  }

  /** Every record the loop builds can be formatted, and its text starts
      with its `Thought:` line. */
  lemma RecordThoughtFirst(thought: Json, act: Json, obs: string, pause: Json, pauseKey: string)
    ensures HasKey(Record(thought, act, obs, pause), "thought")
    ensures StartsWith(FormatRecord(Record(thought, act, obs, pause), pauseKey), "Thought: " + Str(thought) + "\n")
  {
  }

  /** With the key as written, the pause stored in a loop-built record never
      reaches the text: the record renders exactly as one without a pause. */
  lemma AsWrittenDropsPause(thought: Json, act: Json, obs: string, pause: Json)
    ensures FormatRecord(Record(thought, act, obs, pause), "pause_reflection")
         == FormatRecord(Record(thought, act, obs, JNull), "pause")
  {
    RecordPauseLines(thought, act, obs, pause);
    RecordPauseLines(thought, act, obs, JNull);
    assert TextLine("PAUSE: ", Some(JNull)) == "";
    RecordHeadIgnoresPause(thought, act, obs, pause, JNull);
  }

  /** The head of a loop record does not read its pause. */
  lemma RecordHeadIgnoresPause(thought: Json, act: Json, obs: string, p1: Json, p2: Json)
    ensures HasKey(Record(thought, act, obs, p1), "thought") && HasKey(Record(thought, act, obs, p2), "thought")
    ensures RecordHead(Record(thought, act, obs, p1)) == RecordHead(Record(thought, act, obs, p2))
  {
    var r1 := Record(thought, act, obs, p1);
    var r2 := Record(thought, act, obs, p2);
    RecordGets(r1);
    RecordGets(r2);
    assert Get(r1, "thought") == Get(r2, "thought");
    assert Get(r1, "action") == Get(r2, "action");
    assert Get(r1, "observation") == Get(r2, "observation");
  }

  /** A loop record's text under either pause key: the head, then the
      `PAUSE:` line only when read from `pause`. */
  lemma RecordPauseLines(thought: Json, act: Json, obs: string, pause: Json)
    ensures var rec := Record(thought, act, obs, pause);
            && HasKey(rec, "thought")
            && FormatRecord(rec, "pause") == RecordHead(rec) + TextLine("PAUSE: ", Some(pause))
            && FormatRecord(rec, "pause_reflection") == RecordHead(rec)
  {
    var rec := Record(thought, act, obs, pause);
    RecordPauseGets(thought, act, obs, pause);
    assert FormatRecord(rec, "pause") == RecordHead(rec) + TextLine("PAUSE: ", Get(rec, "pause"));
    assert FormatRecord(rec, "pause_reflection") == RecordHead(rec) + TextLine("PAUSE: ", Get(rec, "pause_reflection"));
  }

  /** The two keys the formatters read the pause from, on a loop record. */
  lemma RecordPauseGets(thought: Json, act: Json, obs: string, pause: Json)
    ensures var rec := Record(thought, act, obs, pause);
            HasKey(rec, "thought") && Get(rec, "pause") == Some(pause) && Get(rec, "pause_reflection") == None
  {
    RecordGets(Record(thought, act, obs, pause));
  }

  /** With the key the loop writes, a truthy pause ends the record's text
      with its `PAUSE:` line, which the formatter as written never emits. */
  lemma CorrectedShowsPause(thought: Json, act: Json, obs: string, pause: Json)
    requires Truthy(pause)
    ensures var text := FormatRecord(Record(thought, act, obs, pause), "pause");
            var line := "PAUSE: " + Str(pause) + "\n";
            |line| <= |text| && text[|text| - |line|..] == line
    ensures FormatRecord(Record(thought, act, obs, pause), "pause_reflection")
         != FormatRecord(Record(thought, act, obs, pause), "pause")
  {
    var rec := Record(thought, act, obs, pause);
    RecordPauseLines(thought, act, obs, pause);
    var line := "PAUSE: " + Str(pause) + "\n";
    var head := RecordHead(rec);
    assert TextLine("PAUSE: ", Some(pause)) == line;
    var text := head + line;
    assert FormatRecord(rec, "pause") == text;
    assert text[|text| - |line|..] == line;
    assert |FormatRecord(rec, "pause_reflection")| == |head| < |text|;
  }

  // ---------------------------------------------------------------------
  // The loop
  // ---------------------------------------------------------------------

  /** The prompt template: the text around its one `{tool_descriptions}`
      placeholder. */
  datatype Template = Template(before: string, after: string)

  /** `template.format(tool_descriptions=catalog)`. */
  function Render(t: Template, catalog: string): string {
    t.before + catalog + t.after
  }

  /** Distinct catalogs give distinct prompts: the rendered template
      determines the catalog it carries. */
  lemma RenderInjective(t: Template, c1: string, c2: string)
    requires Render(t, c1) == Render(t, c2)
    ensures c1 == c2
  {
    var r := Render(t, c1);
    assert c1 == r[|t.before|..|r| - |t.after|];
    assert c2 == Render(t, c2)[|t.before|..|r| - |t.after|];
  }

  /** `AsWritten` calls `self.format_thought_history`, which the class does
      not define; `Corrected` calls the formatter that exists, reading the
      pause under the key the loop writes. */
  datatype Build = AsWritten | Corrected

  const NoFormatter := "AttributeError: 'ReActAgent' object has no attribute 'format_thought_history'"

  /** The system prompt of one iteration: the rendered template, plus the
      history text once there is history. */
  function Prompt(build: Build, rendered: string, history: seq<Json>): (r: Result<string>)
    requires Formattable(history)
    ensures |history| == 0 ==> r == Ok(rendered)
    ensures |history| > 0 && build.AsWritten? ==> r == Err(NoFormatter)
    ensures |history| > 0 && build.Corrected? ==> r == Ok(rendered + FormatHistory(history))
  {
    if |history| == 0 then Ok(rendered)
    else if build.AsWritten? then Err(NoFormatter)
    else Ok(rendered + FormatHistory(history))
  }

  /** How a run ends: `final_answer`'s value, the parse-failure text `run`
      returns, an exception escaping `run`, or no more model replies in the
      finite sequence the model is given as. */
  datatype Status = Answered(answer: Json) | ParseFailed(message: string) | Escaped(error: string) | OutOfReplies

  /** The end of a run together with the history it built and the system
      prompts it sent, one per model reply it consumed. */
  datatype RunResult = RunResult(status: Status, history: seq<Json>, prompts: seq<string>)

  /** Every entry of the history has the shape of a loop-built record. */
  predicate LoopBuilt(h: seq<Json>) {
    forall i :: 0 <= i < |h| ==> IsRecord(h[i])
  }

  lemma LoopBuiltFormattable(h: seq<Json>)
    requires LoopBuilt(h)
    ensures Formattable(h)
  {
    forall i | 0 <= i < |h| ensures HasKey(h[i], "thought") {
      RecordGets(h[i]);
    }
  }

  /** Appending loop records keeps a history loop-built. */
  lemma AppendsKeepsLoopBuilt(h1: seq<Json>, h2: seq<Json>, tools: ToolTable, thought: Json, pause: Json, acts: seq<Json>)
    requires LoopBuilt(h1)
    requires AppendsRecords(h1, h2, tools, thought, pause, acts)
    ensures LoopBuilt(h2)
  {
    forall i | 0 <= i < |h2| ensures IsRecord(h2[i]) {
      if i < |h1| {
        assert h2[i] == h1[i];
      } else {
        var k := i - |h1|;
        RecordIsRecord(thought, acts[k], Observe(tools, acts[k]).value, pause);
      }
    }
  }

  lemma StepKeepsLoopBuilt(loads: Loads, tools: ToolTable, text: string, history: seq<Json>)
    requires LoopBuilt(history)
    requires ProcessReply(loads, tools, text, history).Continued?
    ensures LoopBuilt(ProcessReply(loads, tools, text, history).history)
  {
    var step := loads(text).value;
    AppendsKeepsLoopBuilt(history, ProcessReply(loads, tools, text, history).history,
                          tools, Thought(step), Pause(step), Actions(step));
  }

  /** One pass of the loop body: the run stops (with the prompts this pass
      sent) or goes on with a longer history after sending one prompt. */
  datatype Turn = Stopped(status: Status, sent: seq<string>) | Went(prompt: string, history: seq<Json>)

  /** One iteration: compose the prompt, take the reply, process it. */
  function TakeTurn(build: Build, rendered: string, loads: Loads, tools: ToolTable, reply: Reply, history: seq<Json>): (t: Turn)
    requires LoopBuilt(history) && Formattable(history)
    ensures t.Stopped? ==> |t.sent| <= 1 && (t.status.Escaped? || |t.sent| == 1) && !t.status.OutOfReplies?
    ensures t.Went? ==> LoopBuilt(t.history) && history <= t.history
    ensures Prompt(build, rendered, history).Err? ==> t == Stopped(Escaped(Prompt(build, rendered, history).error), [])
    ensures Prompt(build, rendered, history).Ok? ==>
              || (t.Went? && t.prompt == Prompt(build, rendered, history).value)
              || (t.Stopped? && t.sent == [Prompt(build, rendered, history).value])
    ensures Prompt(build, rendered, history).Ok? ==>
              var p := Prompt(build, rendered, history).value;
              match ProcessReply(loads, tools, ReplyText(reply), history)
              case Finished(a) => t == Stopped(Answered(a), [p])
              case Unparsable(m) => t == Stopped(ParseFailed(m), [p])
              case StepRaised(e) => t == Stopped(Escaped(e), [p])
              case Continued(h) => t == Went(p, h)
  {
    match Prompt(build, rendered, history)
    case Err(e) => Stopped(Escaped(e), [])
    case Ok(p) =>
      match ProcessReply(loads, tools, ReplyText(reply), history)
      case Finished(a) => Stopped(Answered(a), [p])
      case Unparsable(m) => Stopped(ParseFailed(m), [p])
      case StepRaised(e) => Stopped(Escaped(e), [p])
      case Continued(h) =>
        StepKeepsLoopBuilt(loads, tools, ReplyText(reply), history);
        Went(p, h)
  }

  /** `while True:` with the model's replies supplied in order, one per
      iteration. */
  function Loop(build: Build, rendered: string, loads: Loads, tools: ToolTable,
                replies: seq<Reply>, history: seq<Json>, prompts: seq<string>): (r: RunResult)
    requires LoopBuilt(history)
    ensures LoopBuilt(r.history)
    ensures history <= r.history
    ensures |prompts| <= |r.prompts| <= |prompts| + |replies| && prompts <= r.prompts
    ensures r.status.OutOfReplies? ==> |r.prompts| == |prompts| + |replies|
    decreases |replies|
  {
    if |replies| == 0 then RunResult(OutOfReplies, history, prompts)
    else
      LoopBuiltFormattable(history);
      match TakeTurn(build, rendered, loads, tools, replies[0], history)
      case Stopped(status, sent) => RunResult(status, history, prompts + sent)
      case Went(p, h) => Loop(build, rendered, loads, tools, replies[1..], h, prompts + [p])
  }

  /** The loop body after the model call, as a function of the reply and
      the history. */
  function StepOf(loads: Loads, tools: ToolTable): (Reply, seq<Json>) -> StepResult {
    (reply: Reply, h: seq<Json>) => ProcessReply(loads, tools, ReplyText(reply), h)
  }

  /** `h1` is the history the loop reaches from `h0` when every one of
      `replies`, in order, gives a step that goes on. */
  ghost predicate Continues(next: (Reply, seq<Json>) -> StepResult, replies: seq<Reply>, h0: seq<Json>, h1: seq<Json>)
    decreases |replies|
  {
    if |replies| == 0 then h1 == h0
    else next(replies[0], h0).Continued? && Continues(next, replies[1..], next(replies[0], h0).history, h1)
  }

  /** Going on over `a` and then over `b` is going on over `a + b`. */
  lemma {:induction false} ContinuesAppend(next: (Reply, seq<Json>) -> StepResult, a: seq<Reply>, b: seq<Reply>,
                                           h0: seq<Json>, h1: seq<Json>, h2: seq<Json>)
    requires Continues(next, a, h0, h1) && Continues(next, b, h1, h2)
    ensures Continues(next, a + b, h0, h2)
    decreases |a|
  {
    if |a| == 0 {
      assert a + b == b;
    } else {
      ContinuesAppend(next, a[1..], b, next(a[0], h0).history, h1, h2);
      assert (a + b)[0] == a[0] && (a + b)[1..] == a[1..] + b;
    }
  }

  /** The prompt of one iteration as a function of the history. Loop-built
      histories are always formattable (`LoopBuiltFormattable`), so the
      `else` branch is never taken by the loop. */
  function PromptOf(build: Build, rendered: string): seq<Json> -> Result<string> {
    (h: seq<Json>) => if Formattable(h) then Prompt(build, rendered, h) else Err(NoFormatter)
  }

  /** How a run that started from `history` with `prompts` sent ended in
      `r`, when each prompt is built by `prompt` and each reply is processed
      by `next`; `n` counts the prompts the run sent: it ran out after all
      replies went on; or the first `n - 1` replies went on and the `n`-th,
      answered under the last prompt, gave the final answer, failed to
      decode or raised; or the first `n` replies went on and the next
      prompt could not be built. */
  ghost predicate Traces(prompt: seq<Json> -> Result<string>, next: (Reply, seq<Json>) -> StepResult,
                         replies: seq<Reply>, history: seq<Json>, prompts: seq<string>, r: RunResult)
  {
    && |prompts| <= |r.prompts| <= |prompts| + |replies|
    && var n := |r.prompts| - |prompts|;
       match r.status
       case OutOfReplies => n == |replies| && Continues(next, replies, history, r.history)
       case Answered(v) => StopsOn(prompt, next, replies, history, prompts, r, Finished(v))
       case ParseFailed(m) => StopsOn(prompt, next, replies, history, prompts, r, Unparsable(m))
       case Escaped(e) =>
         || StopsOn(prompt, next, replies, history, prompts, r, StepRaised(e))
         || (n < |replies| && Continues(next, replies[..n], history, r.history) && prompt(r.history) == Err(e))
  }

  /** The run sent `n >= 1` prompts, the replies before the `n`-th went on,
      the last prompt was built from the history they reached, and the
      `n`-th reply processed on that history gave `step`. */
  ghost predicate StopsOn(prompt: seq<Json> -> Result<string>, next: (Reply, seq<Json>) -> StepResult,
                          replies: seq<Reply>, history: seq<Json>, prompts: seq<string>, r: RunResult, step: StepResult)
    requires |prompts| <= |r.prompts| <= |prompts| + |replies|
  {
    var n := |r.prompts| - |prompts|;
    && 1 <= n
    && Continues(next, replies[..n - 1], history, r.history)
    && prompt(r.history) == Ok(r.prompts[|r.prompts| - 1])
    && next(replies[n - 1], r.history) == step
  }

  /** A run whose first prompt cannot be built stops there, traced by no
      reply. */
  lemma {:induction false} PromptErrorTraces(prompt: seq<Json> -> Result<string>, next: (Reply, seq<Json>) -> StepResult,
                                             replies: seq<Reply>, history: seq<Json>, prompts: seq<string>, r: RunResult)
    requires |replies| >= 1 && prompt(history).Err?
    requires r == RunResult(Escaped(prompt(history).error), history, prompts)
    ensures Traces(prompt, next, replies, history, prompts, r)
  {
    var none: seq<Reply> := [];
    assert replies[..0] == none;
    assert Continues(next, none, history, history);
  }

  /** A run whose first reply stops it on the prompt it was sent is traced
      by that reply alone. */
  lemma {:induction false} FirstStepTraces(prompt: seq<Json> -> Result<string>, next: (Reply, seq<Json>) -> StepResult,
                                           replies: seq<Reply>, history: seq<Json>, prompts: seq<string>,
                                           r: RunResult, step: StepResult)
    requires |replies| >= 1 && prompt(history).Ok? && next(replies[0], history) == step
    requires r.history == history && r.prompts == prompts + [prompt(history).value]
    requires match r.status
             case Answered(v) => step == Finished(v)
             case ParseFailed(m) => step == Unparsable(m)
             case Escaped(e) => step == StepRaised(e)
             case OutOfReplies => false
    ensures Traces(prompt, next, replies, history, prompts, r)
  {
    var none: seq<Reply> := [];
    assert replies[..0] == none;
    assert Continues(next, none, history, history);
    assert r.prompts[|r.prompts| - 1] == prompt(history).value;
  }

  /** A run whose first turn stops is traced by that turn alone. */
  lemma {:induction false} StoppedTraces(build: Build, rendered: string, loads: Loads, tools: ToolTable,
                                         replies: seq<Reply>, history: seq<Json>, prompts: seq<string>)
    requires LoopBuilt(history) && Formattable(history) && |replies| >= 1
    requires TakeTurn(build, rendered, loads, tools, replies[0], history).Stopped?
    ensures Traces(PromptOf(build, rendered), StepOf(loads, tools), replies, history, prompts,
                   Loop(build, rendered, loads, tools, replies, history, prompts))
  {
    var prompt := PromptOf(build, rendered);
    var next := StepOf(loads, tools);
    var t := TakeTurn(build, rendered, loads, tools, replies[0], history);
    var r := Loop(build, rendered, loads, tools, replies, history, prompts);
    assert r == RunResult(t.status, history, prompts + t.sent);
    assert prompt(history) == Prompt(build, rendered, history);
    if prompt(history).Err? {
      PromptErrorTraces(prompt, next, replies, history, prompts, r);
    } else {
      var step := ProcessReply(loads, tools, ReplyText(replies[0]), history);
      assert next(replies[0], history) == step;
      FirstStepTraces(prompt, next, replies, history, prompts, r, step);
    }
  }

  /** A first reply that goes on to `h` puts itself in front of the trace
      of the rest of the run from `h`. */
  lemma {:induction false} WentTraces(prompt: seq<Json> -> Result<string>, next: (Reply, seq<Json>) -> StepResult,
                                      replies: seq<Reply>, history: seq<Json>, prompts: seq<string>,
                                      p: string, h: seq<Json>, r: RunResult)
    requires |replies| >= 1 && next(replies[0], history) == Continued(h)
    requires Traces(prompt, next, replies[1..], h, prompts + [p], r)
    ensures Traces(prompt, next, replies, history, prompts, r)
  {
    var rest := replies[1..];
    var n := |r.prompts| - |prompts|;
    var m := n - 1;
    var first := [replies[0]];
    assert Continues(next, first[1..], h, h);
    assert Continues(next, first, history, h);
    if r.status.OutOfReplies? {
      ContinuesAppend(next, first, rest, history, h, r.history);
      assert first + rest == replies;
    } else if m < |rest| && Continues(next, rest[..m], h, r.history) && prompt(r.history).Err? {
      ContinuesAppend(next, first, rest[..m], history, h, r.history);
      assert first + rest[..m] == replies[..n];
    } else {
      assert 1 <= m;
      ContinuesAppend(next, first, rest[..m - 1], history, h, r.history);
      assert first + rest[..m - 1] == replies[..n - 1];
      assert rest[m - 1] == replies[n - 1];
    }
  }

  /** A first turn that goes on hands the rest of the replies to the loop
      with the step's history. */
  lemma WentTurn(build: Build, rendered: string, loads: Loads, tools: ToolTable,
                 replies: seq<Reply>, history: seq<Json>, prompts: seq<string>)
    requires LoopBuilt(history) && Formattable(history) && |replies| >= 1
    requires TakeTurn(build, rendered, loads, tools, replies[0], history).Went?
    ensures var t := TakeTurn(build, rendered, loads, tools, replies[0], history);
            && LoopBuilt(t.history)
            && Loop(build, rendered, loads, tools, replies, history, prompts)
                 == Loop(build, rendered, loads, tools, replies[1..], t.history, prompts + [t.prompt])
            && StepOf(loads, tools)(replies[0], history) == Continued(t.history)
  {
    var t := TakeTurn(build, rendered, loads, tools, replies[0], history);
    assert Prompt(build, rendered, history).Ok?;
    var step := ProcessReply(loads, tools, ReplyText(replies[0]), history);
    assert step.Continued? && step.history == t.history;
    assert StepOf(loads, tools)(replies[0], history) == step;
  }

  /** Every run of the loop is traced by its replies: the history it ends
      with is reached by steps that went on, and its status is what the
      last reply (or the prompt it could not build) gave. */
  lemma {:induction false} LoopTraces(build: Build, rendered: string, loads: Loads, tools: ToolTable,
                                      replies: seq<Reply>, history: seq<Json>, prompts: seq<string>)
    requires LoopBuilt(history)
    ensures Traces(PromptOf(build, rendered), StepOf(loads, tools), replies, history, prompts,
                   Loop(build, rendered, loads, tools, replies, history, prompts))
    decreases |replies|
  {
    LoopBuiltFormattable(history);
    if |replies| == 0 {
      assert Continues(StepOf(loads, tools), replies, history, history);
      return;
    }
    var t := TakeTurn(build, rendered, loads, tools, replies[0], history);
    if t.Stopped? {
      StoppedTraces(build, rendered, loads, tools, replies, history, prompts);
    } else {
      WentTurn(build, rendered, loads, tools, replies, history, prompts);
      var r := Loop(build, rendered, loads, tools, replies[1..], t.history, prompts + [t.prompt]);
      LoopTraces(build, rendered, loads, tools, replies[1..], t.history, prompts + [t.prompt]);
      WentTraces(PromptOf(build, rendered), StepOf(loads, tools), replies, history, prompts, t.prompt, t.history, r);
    }
  }

  /** `text` decodes to an object whose `final_answer` is `v`. */
  ghost predicate Answers(loads: Loads, text: string, v: Json) {
    loads(text).Parsed? && loads(text).value.JObject? && Get(loads(text).value, "final_answer") == Some(v)
  }

  /** A step gives a final answer only for a reply that decodes to an
      object carrying `final_answer`, and the answer is that value. */
  lemma FinishedOnlyFromAnswer(loads: Loads, tools: ToolTable, text: string, history: seq<Json>, v: Json)
    requires ProcessReply(loads, tools, text, history) == Finished(v)
    ensures Answers(loads, text, v)
  {
  }

  /** `run(query)`: an empty history and no prompts sent yet. Whatever the
      run returns came from its replies: a final answer is the
      `final_answer` value of the last reply it took, on the history the
      earlier replies built. */
  function Run(build: Build, rendered: string, loads: Loads, tools: ToolTable, replies: seq<Reply>): (r: RunResult)
    ensures LoopBuilt(r.history)
    ensures |r.prompts| <= |replies|
    ensures r.status.OutOfReplies? ==> |r.prompts| == |replies|
    ensures Traces(PromptOf(build, rendered), StepOf(loads, tools), replies, [], [], r)
  {
    LoopTraces(build, rendered, loads, tools, replies, [], []);
    Loop(build, rendered, loads, tools, replies, [], [])
  }

  /** In a traced run that ends with a final answer, the last reply it used
      gave that answer. */
  lemma AnsweredTraced(prompt: seq<Json> -> Result<string>, next: (Reply, seq<Json>) -> StepResult,
                       replies: seq<Reply>, history: seq<Json>, prompts: seq<string>, r: RunResult)
    requires Traces(prompt, next, replies, history, prompts, r) && r.status.Answered?
    ensures |prompts| < |r.prompts| <= |prompts| + |replies|
    ensures next(replies[|r.prompts| - |prompts| - 1], r.history) == Finished(r.status.answer)
  {
  }

  /** A run that ends with a final answer took it from the `final_answer`
      field of the last reply it used. */
  lemma AnswerCameFromReply(build: Build, rendered: string, loads: Loads, tools: ToolTable, replies: seq<Reply>)
    ensures var r := Run(build, rendered, loads, tools, replies);
            r.status.Answered? ==>
              1 <= |r.prompts| <= |replies| && Answers(loads, ReplyText(replies[|r.prompts| - 1]), r.status.answer)
  {
    var r := Run(build, rendered, loads, tools, replies);
    if !r.status.Answered? {
      return;
    }
    AnsweredTraced(PromptOf(build, rendered), StepOf(loads, tools), replies, [], [], r);
    var i := |r.prompts| - 1;
    var text := ReplyText(replies[i]);
    assert StepOf(loads, tools)(replies[i], r.history) == ProcessReply(loads, tools, text, r.history);
    FinishedOnlyFromAnswer(loads, tools, text, r.history, r.status.answer);
  }

  /** A first reply that does not decode ends the run with the parse-failure
      text and no dispatched tool; in particular a failed model call does. */
  lemma FirstReplyUndecodable(build: Build, rendered: string, loads: Loads, tools: ToolTable, replies: seq<Reply>)
    requires |replies| >= 1 && loads(ReplyText(replies[0])).DecodeError?
    ensures var text := ReplyText(replies[0]);
            Run(build, rendered, loads, tools, replies)
              == RunResult(ParseFailed(ParseFailure(loads(text).message, text)), [], [rendered])
  {
  }

  /** A failed model call on the first turn ends the run with the
      parse-failure text whose raw part is the error text. */
  lemma ModelFailureIsFatal(build: Build, rendered: string, loads: Loads, tools: ToolTable, replies: seq<Reply>)
    requires RejectsNonValueStart(loads)
    requires |replies| >= 1 && replies[0].CallFailed?
    ensures loads("Error generating response: " + replies[0].message).DecodeError?
    ensures var text := "Error generating response: " + replies[0].message;
            Run(build, rendered, loads, tools, replies)
              == RunResult(ParseFailed(ParseFailure(loads(text).message, text)), [], [rendered])
  {
    var m := replies[0].message;
    assert replies[0] == CallFailed(m);
    CallFailureUndecodable(loads, m);
    FirstReplyUndecodable(build, rendered, loads, tools, replies);
  }

  /** A first reply carrying `final_answer` ends the run with that value,
      whatever actions it also lists, and nothing is recorded. */
  lemma FirstReplyFinal(build: Build, rendered: string, loads: Loads, tools: ToolTable, replies: seq<Reply>)
    requires |replies| >= 1
    requires loads(ReplyText(replies[0])).Parsed?
    requires HasKey(loads(ReplyText(replies[0])).value, "final_answer")
    ensures Run(build, rendered, loads, tools, replies)
              == RunResult(Answered(Get(loads(ReplyText(replies[0])).value, "final_answer").value), [], [rendered])
  {
  }

  /** The first turn of any run sends the bare template and, when its step
      records actions, goes on with them as the history. */
  lemma FirstTurnContinues(build: Build, rendered: string, loads: Loads, tools: ToolTable, replies: seq<Reply>)
    requires |replies| >= 1
    requires ProcessReply(loads, tools, ReplyText(replies[0]), []).Continued?
    ensures LoopBuilt(ProcessReply(loads, tools, ReplyText(replies[0]), []).history)
    ensures var h := ProcessReply(loads, tools, ReplyText(replies[0]), []).history;
            Run(build, rendered, loads, tools, replies) == Loop(build, rendered, loads, tools, replies[1..], h, [rendered])
  {
    var h := ProcessReply(loads, tools, ReplyText(replies[0]), []).history;
    StepKeepsLoopBuilt(loads, tools, ReplyText(replies[0]), []);
    assert Prompt(build, rendered, []) == Ok(rendered);
    assert TakeTurn(build, rendered, loads, tools, replies[0], []) == Went(rendered, h);
    assert [] + [rendered] == [rendered];
  }

  /** Every run that gets a reply first sends the bare rendered template. */
  lemma FirstPromptIsTemplate(build: Build, rendered: string, loads: Loads, tools: ToolTable, replies: seq<Reply>)
    requires |replies| >= 1
    ensures |Run(build, rendered, loads, tools, replies).prompts| >= 1
    ensures Run(build, rendered, loads, tools, replies).prompts[0] == rendered
  {
    assert Prompt(build, rendered, []) == Ok(rendered);
    SendsPrompt(build, rendered, loads, tools, replies, [], []);
  }

  /** An iteration whose prompt can be built sends it: it is the next
      prompt in the run's record. */
  lemma SendsPrompt(build: Build, rendered: string, loads: Loads, tools: ToolTable, replies: seq<Reply>,
                    history: seq<Json>, prompts: seq<string>)
    requires LoopBuilt(history) && |replies| >= 1
    ensures Formattable(history)
    ensures Prompt(build, rendered, history).Ok? ==>
              prompts + [Prompt(build, rendered, history).value] <= Loop(build, rendered, loads, tools, replies, history, prompts).prompts
  {
    LoopBuiltFormattable(history);
    var t := TakeTurn(build, rendered, loads, tools, replies[0], history);
    if t.Went? {
      assert Loop(build, rendered, loads, tools, replies, history, prompts)
          == Loop(build, rendered, loads, tools, replies[1..], t.history, prompts + [t.prompt]);
    }
  }

  /** As written, any iteration that starts with a non-empty history raises
      before the model is called, keeping the history and the prompts sent. */
  lemma AsWrittenStopsOnHistory(rendered: string, loads: Loads, tools: ToolTable, replies: seq<Reply>,
                                history: seq<Json>, prompts: seq<string>)
    requires LoopBuilt(history) && |history| > 0 && |replies| >= 1
    ensures Loop(AsWritten, rendered, loads, tools, replies, history, prompts)
              == RunResult(Escaped(NoFormatter), history, prompts)
  {
    LoopBuiltFormattable(history);
    assert Prompt(AsWritten, rendered, history) == Err(NoFormatter);
    assert TakeTurn(AsWritten, rendered, loads, tools, replies[0], history) == Stopped(Escaped(NoFormatter), []);
    assert prompts + [] == prompts;
  }

  /** Corrected, an iteration that has a reply sends the template followed
      by the formatted history. */
  lemma CorrectedSendsHistory(rendered: string, loads: Loads, tools: ToolTable, replies: seq<Reply>,
                              history: seq<Json>, prompts: seq<string>)
    requires LoopBuilt(history) && |replies| >= 1
    ensures Formattable(history)
    ensures prompts + [rendered + FormatHistory(history)] <= Loop(Corrected, rendered, loads, tools, replies, history, prompts).prompts
  {
    LoopBuiltFormattable(history);
    var p := rendered + FormatHistory(history);
    if |history| == 0 {
      FormatEmpty(history, "pause");
      assert p == rendered;
    }
    assert Prompt(Corrected, rendered, history) == Ok(p);
    SendsPrompt(Corrected, rendered, loads, tools, replies, history, prompts);
  }

  /** As written, a run whose first step records anything cannot take a
      second turn: building the second prompt raises `AttributeError`. */
  lemma AsWrittenSecondTurnRaises(rendered: string, loads: Loads, tools: ToolTable, replies: seq<Reply>)
    requires |replies| >= 2
    requires ProcessReply(loads, tools, ReplyText(replies[0]), []).Continued?
    requires |ProcessReply(loads, tools, ReplyText(replies[0]), []).history| > 0
    ensures Run(AsWritten, rendered, loads, tools, replies)
              == RunResult(Escaped(NoFormatter), ProcessReply(loads, tools, ReplyText(replies[0]), []).history, [rendered])
  {
    var h := ProcessReply(loads, tools, ReplyText(replies[0]), []).history;
    FirstTurnContinues(AsWritten, rendered, loads, tools, replies);
    AsWrittenStopsOnHistory(rendered, loads, tools, replies[1..], h, [rendered]);
  }

  /** Corrected, the second turn goes ahead and its prompt carries the
      history the first step recorded. */
  lemma CorrectedSecondTurnSeesHistory(rendered: string, loads: Loads, tools: ToolTable, replies: seq<Reply>)
    requires |replies| >= 2
    requires ProcessReply(loads, tools, ReplyText(replies[0]), []).Continued?
    ensures Formattable(ProcessReply(loads, tools, ReplyText(replies[0]), []).history)
    ensures var h := ProcessReply(loads, tools, ReplyText(replies[0]), []).history;
            [rendered, rendered + FormatHistory(h)] <= Run(Corrected, rendered, loads, tools, replies).prompts
  {
    var h := ProcessReply(loads, tools, ReplyText(replies[0]), []).history;
    FirstTurnContinues(Corrected, rendered, loads, tools, replies);
    CorrectedSendsHistory(rendered, loads, tools, replies[1..], h, [rendered]);
  }
}
