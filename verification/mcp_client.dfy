/** The ReAct client of an MCP server: its connection state (`session`, the
    exit stack and the tool catalog `_connect` builds from the server's tool
    list), `aclose`, and its run, which is the shared ReAct step. The MCP
    transport itself is a parameter: the outcome of the handshake. */
module McpClient {
  import opened Common
  import opened Text
  import opened Json
  import ReAct

  /** A tool as the server advertises it: `t.name` and `t.description`,
      which may be `None`. */
  datatype ToolInfo = ToolInfo(name: string, description: Option<string>)

  /** How the handshake in `_connect` ends: starting the server process
      fails (before `session` is assigned), `initialize` or `list_tools`
      fails (after), or the server lists its tools. */
  datatype Handshake =
    | SpawnFailed(error: string)
    | InitFailed(error: string)
    | ListFailed(error: string)
    | Listed(tools: seq<ToolInfo>)

  /** `_exit_stack`: never created, entered and still open, or closed by
      `aclose`. */
  datatype ExitStack = NoStack | Open | Closed

  /** The connection state of the agent: whether `session` is set, its exit
      stack, and `tools_description`. */
  datatype Client = Client(session: bool, exitStack: ExitStack, toolsDescription: string)

  /** `ReActAgent()`: no session, no exit stack, an empty catalog. */
  function NewClient(): (c: Client)
    ensures !c.session && c.exitStack.NoStack? && c.toolsDescription == ""
  {
    Client(false, NoStack, "")
  }

  /** `f"{t.name}: \"{t.description}\""`; a missing description prints as
      `None`. */
  function CatalogLine(t: ToolInfo): string {
    t.name + ": \"" + t.description.GetOr("None") + "\""
  }

  function CatalogLines(tools: seq<ToolInfo>): (ls: seq<string>)
    ensures |ls| == |tools| && forall i :: 0 <= i < |tools| ==> ls[i] == CatalogLine(tools[i])
  {
    seq(|tools|, i requires 0 <= i < |tools| => CatalogLine(tools[i]))
  }

  /** The catalog: one line per advertised tool, in server order, joined by
      line breaks. */
  function Catalog(tools: seq<ToolInfo>): string {
    Join(CatalogLines(tools), "\n")
  }

  /** A catalog of at least one tool ends with the closing quote of the
      last tool's line, whatever the descriptions hold. */
  lemma CatalogEndsWithQuote(tools: seq<ToolInfo>)
    requires |tools| >= 1
    ensures Catalog(tools)[|Catalog(tools)| - 1] == '"'
  {
    JoinEndsWith(CatalogLines(tools), "\n");
  }

  /** When no name or description holds a line break, the catalog splits
      back into exactly one line per tool, in server order; no tools give
      the empty catalog. */
  lemma CatalogLinesBack(tools: seq<ToolInfo>)
    requires forall i :: 0 <= i < |tools| ==> '\n' !in tools[i].name && '\n' !in tools[i].description.GetOr("None")
    ensures |tools| == 0 ==> Catalog(tools) == ""
    ensures |tools| > 0 ==> Split(Catalog(tools), '\n') == CatalogLines(tools)
  {
    if |tools| > 0 {
      var ls := CatalogLines(tools);
      forall k | 0 <= k < |ls| ensures '\n' !in ls[k] {
        var t := tools[k];
        assert ls[k] == t.name + ": \"" + t.description.GetOr("None") + "\"";
      }
      SplitJoin(ls, '\n');
    }
  }

  /** What `_connect` leaves behind: the new state, and the exception that
      escaped, if any. */
  datatype Connected = Connected(client: Client, error: Option<string>)

  /** `_connect()`. With `session` set it returns at once. Otherwise it
      enters a new exit stack, and `session` is assigned as soon as the
      `ClientSession` context is entered, before `initialize` and
      `list_tools` can fail. */
  function Connect(c: Client, hs: Handshake): (r: Connected)
    ensures c.session ==> r == Connected(c, None)
    ensures !c.session ==> r.client.exitStack.Open?
    ensures r.error.None? <==> c.session || hs.Listed?
    ensures !c.session && hs.Listed? ==> r.client == Client(true, Open, Catalog(hs.tools))
    ensures r.error.Some? ==> r.client.toolsDescription == c.toolsDescription
    ensures r.client.session <==> c.session || !hs.SpawnFailed?
  {
    if c.session then Connected(c, None)
    else
      match hs
      case SpawnFailed(e) => Connected(Client(false, Open, c.toolsDescription), Some(e))
      case InitFailed(e) => Connected(Client(true, Open, c.toolsDescription), Some(e))
      case ListFailed(e) => Connected(Client(true, Open, c.toolsDescription), Some(e))
      case Listed(ts) => Connected(Client(true, Open, Catalog(ts)), None)
  }

  /** Connecting is idempotent: once a handshake got as far as a session,
      no later call changes anything, whatever the server would answer. */
  lemma ConnectIdempotent(c: Client, hs1: Handshake, hs2: Handshake)
    requires !hs1.SpawnFailed?
    ensures Connect(Connect(c, hs1).client, hs2) == Connected(Connect(c, hs1).client, None)
  {
  }

  /** A failed `initialize` or `list_tools` leaves `session` set and the
      catalog as it was, so no later `_connect` builds the catalog. */
  lemma FailedHandshakeSticks(hs1: Handshake, hs2: Handshake)
    requires hs1.InitFailed? || hs1.ListFailed?
    ensures var c := Connect(NewClient(), hs1).client;
            c.session && Connect(c, hs2).client.toolsDescription == ""
  {
  }

  /** `aclose()`: closes the exit stack when there is one; a client that
      never tried to connect is left as it is. */
  function Close(c: Client): (r: Client)
    ensures c.exitStack.NoStack? ==> r == c
    ensures !c.exitStack.NoStack? ==> r.exitStack.Closed?
    ensures r.session == c.session && r.toolsDescription == c.toolsDescription
  {
    if c.exitStack.NoStack? then c else c.(exitStack := Closed)
  }

  /** Closing twice is closing once. */
  lemma CloseIdempotent(c: Client)
    ensures Close(Close(c)) == Close(c)
  {
  }

  /** `aclose` does not clear `session`, so after it `_connect` does not
      reconnect: the closed client stays closed. */
  lemma ConnectAfterClose(c: Client, hs: Handshake)
    requires c.session
    ensures Connect(Close(c), hs).client == Close(c)
  {
  }

  // ---------------------------------------------------------------------
  // The run
  // ---------------------------------------------------------------------

  /** `run(query)` as written: `_connect` is never called, so the prompt
      carries whatever catalog the client holds, and `self.tools` does not
      exist, so dispatch raises `AttributeError`. */
  function RunAsWritten(c: Client, template: ReAct.Template, loads: Loads, replies: seq<ReAct.Reply>): (r: ReAct.RunResult)
    ensures ReAct.LoopBuilt(r.history) && |r.prompts| <= |replies|
  {
    ReAct.Run(ReAct.AsWritten, ReAct.Render(template, c.toolsDescription), loads, ReAct.Missing, replies)
  }

  /** Without a tool table, an action list is handled without raising
      exactly when every action is an object missing its tool name or
      input: any complete action raises. */
  lemma MissingToolsOnlyRecordsIncomplete(acts: seq<Json>)
    ensures ReAct.AllObserved(ReAct.Missing, acts) <==>
              forall i :: 0 <= i < |acts| ==> acts[i].JObject? && ReAct.Incomplete(acts[i])
  {
  }

  /** As written, a fresh client's first prompt has an empty tool catalog. */
  lemma AsWrittenPromptHasNoCatalog(template: ReAct.Template, loads: Loads, replies: seq<ReAct.Reply>)
    requires |replies| >= 1
    ensures var r := RunAsWritten(NewClient(), template, loads, replies);
            |r.prompts| >= 1 && r.prompts[0] == template.before + template.after
  {
    var rendered := ReAct.Render(template, "");
    assert rendered == template.before + template.after;
    ReAct.FirstPromptIsTemplate(ReAct.AsWritten, rendered, loads, ReAct.Missing, replies);
    assert RunAsWritten(NewClient(), template, loads, replies) == ReAct.Run(ReAct.AsWritten, rendered, loads, ReAct.Missing, replies);
  }

  /** `run(query)` corrected: connect first (an exception from the
      handshake escapes), render the catalog `_connect` built, and dispatch
      through a tool table. */
  function Run(c: Client, hs: Handshake, tools: ReAct.ToolTable, template: ReAct.Template,
               loads: Loads, replies: seq<ReAct.Reply>): (r: ReAct.RunResult)
    ensures Connect(c, hs).error.Some? ==> r == ReAct.RunResult(ReAct.Escaped(Connect(c, hs).error.value), [], [])
    ensures !c.session && hs.Listed? && |replies| >= 1 ==>
              |r.prompts| >= 1 && r.prompts[0] == ReAct.Render(template, Catalog(hs.tools))
  {
    var conn := Connect(c, hs);
    match conn.error
    case Some(e) => ReAct.RunResult(ReAct.Escaped(e), [], [])
    case None =>
      var rendered := ReAct.Render(template, conn.client.toolsDescription);
      if |replies| >= 1 then
        ReAct.FirstPromptIsTemplate(ReAct.Corrected, rendered, loads, tools, replies);
        ReAct.Run(ReAct.Corrected, rendered, loads, tools, replies)
      else ReAct.Run(ReAct.Corrected, rendered, loads, tools, replies)
  }

  /** A step with one complete action: as written the run raises at the
      dispatch; corrected, with the tool present, the action is recorded
      with the tool's output. */
  lemma OneCallScenario(template: ReAct.Template, loads: Loads, text: string, name: string, out: string,
                        find: string -> Option<ReAct.Tool>)
    requires name != ""
    requires find(name).Some? && find(name).value(JString("x")) == ReAct.Returned(out)
    requires loads(text) == Parsed(JObject([("action", JObject([("tool_choice", JString(name)), ("tool_input", JString("x"))]))]))
    ensures RunAsWritten(NewClient(), template, loads, [ReAct.Completion(text)]).status == ReAct.Escaped(ReAct.NoToolsAttribute)
    ensures ReAct.ProcessReply(loads, ReAct.Attributes(find), text, []).Continued?
    ensures ReAct.ProcessReply(loads, ReAct.Attributes(find), text, []).history
              == [ReAct.Record(JString(""), JObject([("tool_choice", JString(name)), ("tool_input", JString("x"))]), out, JNull)]
  {
    var act := JObject([("tool_choice", JString(name)), ("tool_input", JString("x"))]);
    var step := JObject([("action", act)]);
    GetAbsent(step, "final_answer");
    GetAbsent(step, "thought");
    GetAbsent(step, "pause");
    assert Get(step, "action") == Some(act);
    assert ReAct.Actions(step) == [act];
    GetPair("tool_choice", JString(name), "tool_input", JString("x"));
    assert ReAct.Observe(ReAct.Missing, act) == Err(ReAct.NoToolsAttribute);
    assert ReAct.Observe(ReAct.Attributes(find), act) == Ok(out);
    var rendered := ReAct.Render(template, "");
    assert ReAct.Prompt(ReAct.AsWritten, rendered, []) == Ok(rendered);
    assert ReAct.ProcessReply(loads, ReAct.Missing, text, []) == ReAct.StepRaised(ReAct.NoToolsAttribute);
  }
}
