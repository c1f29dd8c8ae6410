# ReAct agents, tool registry and calculator tool — a Dafny model

This project models the deterministic core of the Learning-Series ReAct labs.

**The ReAct step.** `run` in the function-calling agent and in the MCP client share the same step:
- decode a model reply;
- stop on `final_answer`;
- otherwise normalise `action` to a list and check each action for `tool_choice`/`tool_input`;
- dispatch the action through a name-to-tool lookup that turns unknown names and tool exceptions into observation text;
- append one history record per action.

The history is rendered back into the next prompt as labelled `Thought:`/`Action:`/`Observation:`/`PAUSE:` lines.

**The basic agent.** The first lab's agent appends whole decoded steps and renders them as one `json.dumps` line each.

**Around the step:**
- the `ToolBox` registry: an insertion-ordered name-to-stripped-docstring map with last-write-wins and a `name: "doc"` catalog;
- `_flatten` and the candidate filter of `_prepare_tools`;
- the MCP client's connection state: `_connect`'s guard and catalog, and `aclose`;
- the `basic_calculator` tool of the MCP server.

**How the model is built.**
- Everything is a pure function over immutable datatypes.
- The language model is an oracle: a finite sequence of replies, each a completion text or the message of a failed call. The `while True` loop runs until it stops or the replies run out (status `OutOfReplies`), so the replies are its fuel.
- `json.loads` is a parameter, `loads: string -> Decoded`. Properties that need it to behave as a JSON decoder say so in their `requires`:
  - `RejectsNonValueStart`: text whose first character is neither JSON whitespace nor one that can start a value does not decode;
  - `InvertsDumps`: it decodes what `json.dumps` produced, for values whose object keys are distinct and whose integers are within CPython's 4300-digit limit (`Json.Canonical`); Python's decoder cannot give back repeated keys or such integers.
- `json.dumps` is modelled concretely, with Python's default separators and both settings of `ensure_ascii`, so that "one record per line" can be proved.
- Tools are functions `Json -> ToolResult` (returned text or raised message).
- The MCP handshake is a parameter: how far it got, and the tool list.

**Builds.** Where the code as written cannot do what it evidently means to do, the model carries both readings, selected by `ReAct.Build`:
- `AsWritten` follows the code line for line.
- `Corrected` is what the code evidently intends. See "## Findings".

Modules:
- `Common`: `Option` and `Result`.
- `Text`: `strip`, `replace`, `join`/`split` and `str(int)`.
- `Json`: the value type, truthiness, `json.dumps`, `str()` and `repr()`.
- `ToolBox`: toolbox.py.
- `ReAct`: the step and history text shared by the function-calling agent and the MCP client.
- `CallingAgent`: the function-calling agents.py.
- `McpClient`: react-mcp-client.py.
- `BasicAgent`: the basic agents.py.
- `Calculator`: mcp_server.py.

## Model

| member | source | states |
|---|---|---|
| ToolBox.New | Lab01_ReActAgent/2-react-with-function-calling/toolbox.py:5-7 | a new registry holds no names and describes itself as the empty string |
| ToolBox.DocOf | Lab01_ReActAgent/2-react-with-function-calling/toolbox.py:50-51 | the stored doc is the docstring with its leading and trailing whitespace (and only that) removed, so neither end is whitespace; a missing docstring is stored as `""` |
| ToolBox.Put | Lab01_ReActAgent/2-react-with-function-calling/toolbox.py:52 | assigning into the ordered map keeps the entry count exactly when the name is already present, and appends otherwise; every existing name keeps its position, and entries for other names are unchanged |
| ToolBox.PutDoc | Lab01_ReActAgent/2-react-with-function-calling/toolbox.py:52 | after the assignment the name maps to the new doc (last write wins), and every other name maps to what it did before |
| ToolBox.PutDistinct | Lab01_ReActAgent/2-react-with-function-calling/toolbox.py:52 | the map never holds a name twice |
| ToolBox.NamesByDoc | Lab01_ReActAgent/2-react-with-function-calling/toolbox.py:7 | a name is registered exactly when it has a doc |
| ToolBox.Register | Lab01_ReActAgent/2-react-with-function-calling/toolbox.py:43-52 | `_register` maps `__name__` to the stripped doc, leaves other names' docs alone, and adds exactly that name; re-registering keeps the count and the order, and a new name is appended last |
| ToolBox.FunctionMembers | Lab01_ReActAgent/2-react-with-function-calling/toolbox.py:24 | keeps exactly the class members that are functions |
| ToolBox.Insert | Lab01_ReActAgent/2-react-with-function-calling/toolbox.py:24 | inserting into a name-sorted member list keeps it sorted, and the result is a permutation of the list plus the new member |
| ToolBox.SortByAttr | Lab01_ReActAgent/2-react-with-function-calling/toolbox.py:24 | `inspect.getmembers` returns members sorted by attribute name, as a permutation of its input |
| ToolBox.GetMembers | Lab01_ReActAgent/2-react-with-function-calling/toolbox.py:24 | `getmembers(obj, predicate=isfunction)` is sorted by name and holds exactly the function members |
| ToolBox.RegisterMembers | Lab01_ReActAgent/2-react-with-function-calling/toolbox.py:24-26 | the registry afterwards holds the old names plus exactly the `__name__`s of the members whose attribute name does not start with `_` |
| ToolBox.StoreOne | Lab01_ReActAgent/2-react-with-function-calling/toolbox.py:20-30 | one item either registers (names only grow) or, exactly when it is neither function nor class, raises `TypeError` |
| ToolBox.Store | Lab01_ReActAgent/2-react-with-function-calling/toolbox.py:9-32 | `store` keeps the map valid and never removes a name; it raises exactly when some item is neither function nor class |
| ToolBox.StoreNoRollback | Lab01_ReActAgent/2-react-with-function-calling/toolbox.py:19-30 | when item i is the first bad one, `store` raises `Tool must be a function, method, or class. Got <type>.` and the items before it stay registered |
| ToolBox.StoreFailsOnFirst | Lab01_ReActAgent/2-react-with-function-calling/toolbox.py:19-30 | whenever `store` raises, its `TypeError` names the type of the first item that is neither a function nor a class |
| ToolBox.ClassRegistersPublicFunctions | Lab01_ReActAgent/2-react-with-function-calling/toolbox.py:22-26 | storing a class registers a name exactly when it was registered already or is the `__name__` of a public function member |
| ToolBox.DescribeLines | Lab01_ReActAgent/2-react-with-function-calling/toolbox.py:41 | when no name or doc holds a line break (a multi-line docstring breaks this), `describe_tools` splits back into one `name: "doc"` line per entry, in insertion order, with no trailing newline |
| ToolBox.DescribeEndsWithQuote | Lab01_ReActAgent/2-react-with-function-calling/toolbox.py:41 | for any non-empty registry, multi-line docs included, the catalog ends with the last entry's closing quote: no trailing newline |
| CallingAgent.FlattenAppend | Lab01_ReActAgent/2-react-with-function-calling/agents.py:34-40 | flattening distributes over concatenation, so leaves come out left to right |
| CallingAgent.InPlace | Lab01_ReActAgent/2-react-with-function-calling/agents.py:36-38 | a nested list, tuple or set is replaced in place by its own flattening, and never yielded itself |
| CallingAgent.FlattenCount | Lab01_ReActAgent/2-react-with-function-calling/agents.py:34-40 | the flattening has exactly as many items as the input has leaves |
| CallingAgent.FlattenLeaves | Lab01_ReActAgent/2-react-with-function-calling/agents.py:39-40 | values that are not collections pass through one for one, in order |
| CallingAgent.PublicCallables | Lab01_ReActAgent/2-react-with-function-calling/agents.py:53-57 | the comprehension keeps exactly the callable attribute values whose names do not start with `_` |
| CallingAgent.PublicCallablesAppend | Lab01_ReActAgent/2-react-with-function-calling/agents.py:53-57 | the comprehension keeps attribute order |
| CallingAgent.CandidatesWithoutUserFunctions | Lab01_ReActAgent/2-react-with-function-calling/agents.py:50-58 | without `user_functions`, the flattened candidates are exactly the public callables of the instance dictionary |
| CallingAgent.PrepareTools | Lab01_ReActAgent/2-react-with-function-calling/agents.py:42-61 | `_prepare_tools` fails exactly when a flattened candidate is neither function nor class; otherwise it returns the catalog of a fresh registry after storing every candidate |
| CallingAgent.StoreFunctions | Lab01_ReActAgent/2-react-with-function-calling/toolbox.py:19-21 | storing plain functions never raises, and registers every function's name |
| CallingAgent.FunctionsAreCatalogued | Lab01_ReActAgent/2-react-with-function-calling/agents.py:50-61 | a flat `user_functions` list of functions is stored without error and the agent's catalog is that registry's description |
| CallingAgent.NewAgent | Lab01_ReActAgent/2-react-with-function-calling/agents.py:23-31 | construction raises exactly when some flattened candidate is neither function nor class, and then raises the `TypeError` naming the first such candidate's type; otherwise the agent keeps the template and tools, and its catalog is that of a fresh registry that stored the flattened candidates |
| CallingAgent.Run | Lab01_ReActAgent/2-react-with-function-calling/agents.py:99-109 | the first prompt is the template with the agent's catalog substituted; history only ever holds loop-built records |
| CallingAgent.TwoTurnScenario | Lab01_ReActAgent/2-react-with-function-calling/agents.py:105-109 | a run with one tool call and then an answer raises `AttributeError` as written, and answers when corrected |
| ReAct.CallFailureUndecodable | Lab01_ReActAgent/2-react-with-function-calling/agents.py:96-97 | the text of a failed model call never decodes as JSON |
| ReAct.Dispatch | Lab01_ReActAgent/2-react-with-function-calling/agents.py:149-156 | dispatch never propagates a tool's error: an absent or non-callable name gives `Unknown tool '<name>'`, a raising tool gives `Tool runtime error: <msg>`, a returning tool gives its text; only a missing `self.tools` or a non-string `tool_choice` (a `TypeError` in `getattr`) raises |
| ReAct.Observe | Lab01_ReActAgent/2-react-with-function-calling/agents.py:134-156 | an action that is not an object raises at `act.get`; an incomplete action records `Missing tool_choice/tool_input` |
| ReAct.IncompleteNeedsNoTools | Lab01_ReActAgent/2-react-with-function-calling/agents.py:138-147 | an action with a falsy `tool_choice` or a `None` `tool_input` is recorded the same way whatever the tools are, so no lookup happens |
| ReAct.EmptyInputIsDispatched | Lab01_ReActAgent/2-react-with-function-calling/agents.py:138-156 | an empty-string `tool_input` is still dispatched to the named tool |
| ReAct.RecordGets | Lab01_ReActAgent/2-react-with-function-calling/agents.py:158-165 | a history record has exactly the keys `thought`, `action`, `observation` and `pause` |
| ReAct.RecordIsRecord | Lab01_ReActAgent/2-react-with-function-calling/agents.py:158-165 | the record built in the loop has the record shape |
| ReAct.RunActions | Lab01_ReActAgent/2-react-with-function-calling/agents.py:134-165 | the action loop completes exactly when every action is observed; it then appends one record per action, in order, each with the step's thought and pause and earlier records untouched; otherwise it raises the first action's error |
| ReAct.AppendsRecordsCons | Lab01_ReActAgent/2-react-with-function-calling/agents.py:134-165 | appending for the first action and then for the rest is appending for all of them |
| ReAct.FirstErrorCons | Lab01_ReActAgent/2-react-with-function-calling/agents.py:134-156 | the loop raises the error of the first action that fails |
| ReAct.ProcessReply | Lab01_ReActAgent/2-react-with-function-calling/agents.py:114-165 | an undecodable reply gives `Could not parse LLM JSON: <err>\nRaw: <text>`; a `final_answer` key ends the step with its value whatever else is present; a non-object step raises; otherwise the actions append their records |
| ReAct.ActionShapes | Lab01_ReActAgent/2-react-with-function-calling/agents.py:127-131 | an absent `action` appends nothing, a list appends one record per element, and any other value is treated as one action |
| ReAct.RecordTexts | Lab01_ReActAgent/2-react-with-function-calling/agents.py:68-77 | the formatter produces one text per record, in order |
| ReAct.FormatEmpty | Lab01_ReActAgent/2-react-with-function-calling/agents.py:68 | an empty history formats to `""` |
| ReAct.FormatAppend | Lab01_ReActAgent/2-react-with-function-calling/agents.py:69-77 | formatting is per record: the text of a concatenation is the concatenation of the texts |
| ReAct.FormatSingle | Lab01_ReActAgent/2-react-with-function-calling/agents.py:69-77 | one record formats to its own block |
| ReAct.RecordThoughtFirst | Lab02_MCP/3-react-with-mcp/react-mcp-client.py:34 | each record's block starts with the `Thought: ` line |
| ReAct.AsWrittenDropsPause | Lab02_MCP/3-react-with-mcp/react-mcp-client.py:39-40 | as written, a loop-built record formats exactly as if its pause were `None`: no `PAUSE:` line ever appears |
| ReAct.CorrectedShowsPause | Lab01_ReActAgent/2-react-with-function-calling/agents.py:75-76 | reading the key the loop writes, a truthy pause ends the block with `PAUSE: <pause>`, which the as-written formatter does not print |
| ReAct.RenderInjective | Lab02_MCP/3-react-with-mcp/prompts.py:37 | substituting `{tool_descriptions}` is injective, so the prompt determines the catalog it carries |
| ReAct.LoopBuiltFormattable | Lab01_ReActAgent/2-react-with-function-calling/agents.py:70 | every loop-built record has the `thought` key the formatter subscripts |
| ReAct.AppendsKeepsLoopBuilt | Lab01_ReActAgent/2-react-with-function-calling/agents.py:134-165 | appending records keeps the history made of loop-built records |
| ReAct.StepKeepsLoopBuilt | Lab01_ReActAgent/2-react-with-function-calling/agents.py:114-165 | a step that continues keeps the history made of loop-built records |
| ReAct.TakeTurn | Lab01_ReActAgent/2-react-with-function-calling/agents.py:103-165 | a prompt that cannot be built stops the turn before the model is asked; otherwise the turn sends that prompt, and the step on the reply decides it: a final answer ends it `Answered`, an undecodable reply `ParseFailed`, a raising step `Escaped`, and a step that goes on continues with exactly the step's history |
| ReAct.Loop | Lab01_ReActAgent/2-react-with-function-calling/agents.py:103-165 | the history only grows and stays loop-built, at most one prompt is sent per reply, and running out of replies means every reply was asked for (`ReAct.LoopTraces` relates the outcome to the replies) |
| ReAct.LoopTraces | Lab01_ReActAgent/2-react-with-function-calling/agents.py:103-165 | a run's final history is reached from its starting history by replies that each went on; a final answer, parse failure or step error is what the reply after them gave under the prompt built from that history; a prompt error comes from that history; running out means every reply went on |
| ReAct.FinishedOnlyFromAnswer | Lab01_ReActAgent/2-react-with-function-calling/agents.py:114-123 | a step ends with a final answer only for a reply that decodes to an object with `final_answer`, and the answer is that value |
| ReAct.Run | Lab02_MCP/3-react-with-mcp/react-mcp-client.py:95-160 | the run starts from an empty history, and its outcome is traced by its replies: every reply before the last one it used went on, and the status is what the last one gave, or the error of the prompt it could not build, or `OutOfReplies` after all of them went on |
| ReAct.AnswerCameFromReply | Lab01_ReActAgent/2-react-with-function-calling/agents.py:103-123 | a run that ends with a final answer took it from the `final_answer` field of the last reply it used |
| ReAct.FirstReplyUndecodable | Lab01_ReActAgent/2-react-with-function-calling/agents.py:114-117 | an undecodable first reply ends the run with the parse-failure text and an empty history, after one prompt |
| ReAct.ModelFailureIsFatal | Lab02_MCP/3-react-with-mcp/react-mcp-client.py:91-112 | a failed first model call becomes `Error generating response: ...`, which takes the parse-failure exit with that text as `Raw` |
| ReAct.FirstReplyFinal | Lab02_MCP/3-react-with-mcp/react-mcp-client.py:115-118 | a first reply with `final_answer` ends the run with its value and no history |
| ReAct.FirstTurnContinues | Lab02_MCP/3-react-with-mcp/react-mcp-client.py:98-160 | a continuing first step hands its records to the next iteration |
| ReAct.FirstPromptIsTemplate | Lab02_MCP/3-react-with-mcp/react-mcp-client.py:100-104 | the first prompt is the rendered template alone |
| ReAct.SendsPrompt | Lab01_ReActAgent/2-react-with-function-calling/agents.py:105-112 | a prompt that can be built is sent next |
| ReAct.AsWrittenStopsOnHistory | Lab01_ReActAgent/2-react-with-function-calling/agents.py:108-109 | as written, any iteration with history raises `AttributeError` before asking the model, and changes nothing |
| ReAct.CorrectedSendsHistory | Lab01_ReActAgent/2-react-with-function-calling/agents.py:108-109 | corrected, an iteration with history sends the template followed by the formatted history |
| ReAct.AsWrittenSecondTurnRaises | Lab02_MCP/3-react-with-mcp/react-mcp-client.py:103-104 | as written, a run whose first step records anything raises on the second iteration |
| ReAct.CorrectedSecondTurnSeesHistory | Lab02_MCP/3-react-with-mcp/react-mcp-client.py:100-104 | corrected, the second prompt is the first followed by the first step's formatted records |
| McpClient.CatalogLinesBack | Lab02_MCP/3-react-with-mcp/react-mcp-client.py:65-67 | when no name or description holds a line break (a multi-line docstring such as `basic_calculator`'s breaks this), the catalog splits back into one `name: "description"` line per tool, in server order; no tools give `""` |
| McpClient.CatalogEndsWithQuote | Lab02_MCP/3-react-with-mcp/react-mcp-client.py:65-67 | for at least one tool, whatever the descriptions hold, the catalog ends with the last tool's closing quote |
| McpClient.Connect | Lab02_MCP/3-react-with-mcp/react-mcp-client.py:44-67 | with a session it returns at once and changes nothing; otherwise a new exit stack is entered, the session is set once the server started, and the catalog is built exactly when the server listed its tools |
| McpClient.ConnectIdempotent | Lab02_MCP/3-react-with-mcp/react-mcp-client.py:46-47 | once a session exists, connecting again does nothing whatever the server would answer |
| McpClient.FailedHandshakeSticks | Lab02_MCP/3-react-with-mcp/react-mcp-client.py:58-67 | a failed `initialize` or `list_tools` leaves the session set and the catalog empty for good |
| McpClient.Close | Lab02_MCP/3-react-with-mcp/react-mcp-client.py:161-163 | `aclose` is a no-op without an exit stack, closes it otherwise, and leaves the session and catalog alone |
| McpClient.CloseIdempotent | Lab02_MCP/3-react-with-mcp/react-mcp-client.py:161-163 | closing twice is closing once |
| McpClient.ConnectAfterClose | Lab02_MCP/3-react-with-mcp/react-mcp-client.py:161-163 | `aclose` does not clear `session`, so a later `_connect` (whose guard is at lines 46-47) does not reconnect |
| McpClient.RunAsWritten | Lab02_MCP/3-react-with-mcp/react-mcp-client.py:95-160 | the run as written, with no `_connect` and no `self.tools`: at most one prompt per reply, loop-built history |
| McpClient.MissingToolsOnlyRecordsIncomplete | Lab02_MCP/3-react-with-mcp/react-mcp-client.py:129-151 | without `self.tools`, an action list goes through exactly when every action is an incomplete object |
| McpClient.AsWrittenPromptHasNoCatalog | Lab02_MCP/3-react-with-mcp/react-mcp-client.py:100-102 | as written, a fresh client's first prompt has the empty tool catalog `__init__` set at line 28 |
| McpClient.Run | Lab02_MCP/3-react-with-mcp/react-mcp-client.py:44-104 | corrected: a failed handshake escapes before any prompt, and a fresh client's first prompt carries the server's catalog |
| McpClient.OneCallScenario | Lab02_MCP/3-react-with-mcp/react-mcp-client.py:144-160 | one complete action raises as written; with a tool table it records the tool's output with defaulted thought and pause |
| BasicAgent.FormatStepsIsJoin | Lab01_ReActAgent/1-basic-react/agents.py:31-38 | the history text is the encodings each followed by a line break; an empty history gives `""` |
| BasicAgent.StepLines | Lab01_ReActAgent/1-basic-react/agents.py:31-38 | the history text splits into exactly one line per record plus an empty tail |
| BasicAgent.LinesDecodeBack | Lab01_ReActAgent/1-basic-react/agents.py:37 | with a decoder that inverts `json.dumps` on values with distinct keys and integers within the digit limit, each line of the history text decodes back to its record, for histories of such records |
| BasicAgent.PromptGuardRedundant | Lab01_ReActAgent/1-basic-react/agents.py:65-69 | the prompt is the template, a line break, and the history text; the `if thought_process` guard changes nothing |
| BasicAgent.ProcessReply | Lab01_ReActAgent/1-basic-react/agents.py:74-85 | parse failure and `final_answer` exits as in the other agents; the step continues exactly when it decodes without `final_answer`, and then the decoded step is appended verbatim |
| BasicAgent.Loop | Lab01_ReActAgent/1-basic-react/agents.py:63-85 | history and prompts only grow; history grows by one per continuing reply; every appended step is the decoding of its reply and every prompt is built from the history before it; a run that stops, at any iteration, returns what the step of the next unused reply gives under the history reached (its `final_answer`, its parse-failure text or its error) |
| BasicAgent.Run | Lab01_ReActAgent/1-basic-react/agents.py:60-85 | the k-th history entry is the decoding of the k-th reply, and the k-th prompt is built from the first k entries; a run that stops returns the exit of reply number `len(history)`, the first one that did not go on |
| BasicAgent.StatusFromStoppingReply | Lab01_ReActAgent/1-basic-react/agents.py:74-85 | a run that stops was stopped by the reply after the last recorded step: it answers exactly when that reply decodes to an object holding `final_answer`, and then with that value; it reports a parse failure exactly when that reply does not decode, with the `Could not parse LLM JSON: …\nRaw: …` text of that reply; any other exit comes from a decoded value that is not an object |
| BasicAgent.ModelFailureIsFatal | Lab01_ReActAgent/1-basic-react/agents.py:56-77 | a failed first model call ends the run with the parse-failure text |
| BasicAgent.FinalAnswerKeepsHistory | Lab01_ReActAgent/1-basic-react/agents.py:80-83 | `final_answer` returns its value without appending to history |
| Json.LookupFirst | Lab01_ReActAgent/2-react-with-function-calling/agents.py:126-128 | a key is found exactly when some field has it |
| Json.DumpsSingleLine | Lab01_ReActAgent/1-basic-react/agents.py:37 | a `json.dumps` encoding never holds a line break |
| Json.DumpsSafe | Lab01_ReActAgent/1-basic-react/agents.py:37 | every character of an encoding is safe, and ASCII when `ensure_ascii` holds |
| Text.IntToStringRoundTrip | Lab02_MCP/3-react-with-mcp/mcp_server.py:68 | `str(int)` is an optional minus sign and digits that read back to the integer |
| Calculator.AnswerReadsBack | Lab02_MCP/3-react-with-mcp/mcp_server.py:68 | an answer is the fixed prefix, the result and the fixed suffix, and the result reads back from it |
| Calculator.AnswerIsNotUnsupported | Lab02_MCP/3-react-with-mcp/mcp_server.py:68-73 | no answer text coincides with the unsupported-operation text |
| Calculator.Clean | Lab02_MCP/3-react-with-mcp/mcp_server.py:35-37 | the cleaned input has no `'` and neither begins nor ends with `"` |
| Calculator.CleanKeepsCleanText | Lab02_MCP/3-react-with-mcp/mcp_server.py:35-37 | input that is already clean passes unchanged |
| Calculator.OperationByName | Lab02_MCP/3-react-with-mcp/mcp_server.py:47-61 | the table maps a name to an operation exactly when that is the operation's name |
| Calculator.TableKeys | Lab02_MCP/3-react-with-mcp/mcp_server.py:47-64 | the table has exactly the thirteen keys |
| Calculator.FloorDivMod | Lab02_MCP/3-react-with-mcp/mcp_server.py:52-53 | Python's `//` and `%` satisfy `a == (a // b) * b + a % b` with the remainder taking the divisor's sign |
| Calculator.Apply | Lab02_MCP/3-react-with-mcp/mcp_server.py:47-67 | an operation raises exactly on a zero divisor for `divide`, `floor_divide` and `modulus` or zero to a negative power; it yields a float exactly for a true division and a negative power of a non-zero base |
| Calculator.Report | Lab02_MCP/3-react-with-mcp/mcp_server.py:67-71 | the result is a `(str(e), "\n\nError during operation execution.")` pair exactly when the operation raised or `str(result)` exceeds the digit limit |
| Calculator.ReportIsNotUnsupported | Lab02_MCP/3-react-with-mcp/mcp_server.py:64-73 | a supported operation never yields the unsupported-operation text |
| Calculator.MissingKey | Lab02_MCP/3-react-with-mcp/mcp_server.py:40-42 | no key is reported exactly when `num1`, `num2` and `operation` are all present |
| Calculator.Evaluate | Lab02_MCP/3-react-with-mcp/mcp_server.py:64-73 | an unhashable operation raises; the unsupported text comes back exactly when the operation is hashable and not a table key |
| Calculator.Respond | Lab02_MCP/3-react-with-mcp/mcp_server.py:39-44 | undecodable input gives `(str(e), "Invalid input format. Please provide a valid JSON string.")`; a decoded non-object raises at the subscript |
| Calculator.RequestGets | Lab02_MCP/3-react-with-mcp/mcp_server.py:40-42 | a request object yields its three fields |
| Calculator.RequestAsks | Lab02_MCP/3-react-with-mcp/mcp_server.py:23 | the documented example layout `{"num1": a, "num2": b, "operation": name}` is an object that asks for that operation |
| Calculator.MissingKeyReported | Lab02_MCP/3-react-with-mcp/mcp_server.py:39-44 | a decoded object lacking a key is answered with the first missing key, in `num1`, `num2`, `operation` order, quoted, paired with the invalid-input text |
| Calculator.UnsupportedIgnoresOperands | Lab02_MCP/3-react-with-mcp/mcp_server.py:64-73 | any decoded object holding the three keys whose operation is hashable but not a table name (a non-string, or an unknown name) gives exactly the unsupported text, whatever the operands |
| Calculator.RequestAnswers | Lab02_MCP/3-react-with-mcp/mcp_server.py:40-71 | any decoded object whose `num1`/`num2` are integer (or boolean) operands and whose `operation` names a table entry, whatever its other keys and their order, is answered by applying that entry to the operands |
| Calculator.RequestApplies | Lab02_MCP/3-react-with-mcp/mcp_server.py:33-71 | end to end: an input that cleans and decodes to such an object is answered by applying its table entry |
| Calculator.EvaluateNamed | Lab02_MCP/3-react-with-mcp/mcp_server.py:64-71 | a table name with two operands applies that operation to them |
| Calculator.ArithmeticAnswer | Lab02_MCP/3-react-with-mcp/mcp_server.py:47-69 | for any object asking `add`, `subtract` or `multiply`: `"\n\nThe answer is: " + str(r) + ".\nCalculated with basic_calculator."`, or the digit-limit error pair when `str(r)` is refused |
| Calculator.ZeroDivisorReported | Lab02_MCP/3-react-with-mcp/mcp_server.py:51-71 | for any object asking `divide`, `floor_divide` or `modulus` by zero: the pair of CPython's `str(e)` (`division by zero`, `integer division or modulo by zero`, `integer modulo by zero`) and the execution-error text |
| Calculator.PowerAnswer | Lab02_MCP/3-react-with-mcp/mcp_server.py:54-71 | for any object asking `power`: `str(a ** b)` in the answer text for a non-negative exponent (or the digit-limit pair), CPython's `0.0 cannot be raised to a negative power` pair for zero to a negative power, and a float otherwise |
| Calculator.ComparisonAnswer | Lab02_MCP/3-react-with-mcp/mcp_server.py:55-68 | for any object asking a comparison: `True` or `False` according to the comparison of the operands |

## Left out

- **Model client.** The Azure OpenAI client, credentials, dotenv, asyncio and `print`/`input` are left out. Only the `Error generating response: ...` text of a failed call is kept.
- **MCP transport.** `stdio_client`, `ClientSession` and `AsyncExitStack` are foreign asynchronous I/O. `_connect` is modelled through a parameter saying how far the handshake got. An exit stack opened by an earlier failed `_connect` and then replaced is not tracked.
- **Other files.** `get_weather` (an HTTP call), both `prompts.py` files and the introductory MCP files are left out. The prompt template is a pair of strings around the `{tool_descriptions}` placeholder.
- **json.loads.** It is a parameter, not a parser. The messages of `JSONDecodeError` come from it.
- **Duplicate JSON keys.** `Json.Get` returns the first field with a key, while a decoded Python dict keeps the last. This only matters for objects with duplicate keys.
- **JSON numbers.** `Json` has integers only, no floats, so a step such as `{"tool_input": 2.5}` cannot be represented at all.
- **Other `json.loads` exceptions.** `Decoded` has only a value or a `JSONDecodeError`. A `None` message content (a `TypeError`) and an integer of more than 4300 digits (a `ValueError`) are not modelled; in the source both escape `run` past the `except json.JSONDecodeError` at Lab01_ReActAgent/2-react-with-function-calling/agents.py:116.
- Json.Dumps: renders integers of any size, while CPython's `json.dumps` raises `ValueError` beyond 4300 digits.
- Json.ReprChar: treats every character above U+00FF as printable, while Python's `repr` escapes some of them (for instance U+2028 and U+200B).
- **Python introspection.** `inspect` is replaced by a tagged `Item`: a function, a class with its members, or any other value with its type name.
  - The instance `__dict__` holds only instance attributes, so the candidate list is the attribute list given to the model.
  - `user_functions` is modelled as a list, tuple or set of candidates.
  - Set iteration order is the given order.
- **The `Tools` class.** It is not part of this model. Dispatch goes through an abstract name-to-tool lookup.
  - The catalog (from `ToolBox`) and dispatch (`getattr` on `Tools`) are independent lookups, as in the code. Nothing relates them.
  - Tool results are modelled as strings.
- **describe_tools.** Its purity (two calls with no `store` between them agree) holds because it is a function of the registry. No separate lemma states it.
- **Floats.** They are left out of the calculator. A true division and a negative power of a non-zero base yield an unmodelled float. Operands other than integers and booleans give `Unmodelled`.
- **Calculator input type.** `basic_calculator` is assumed to receive a string.
- **Exception texts.** They follow CPython 3.12 wording:
  - `ZeroDivisionError` messages;
  - `repr` of the missing key, written `'` + key + `'` (which is `repr` for the three key names);
  - the 4300-digit limit of `str(int)`.
- **Formatter on foreign histories.** The labelled history formatter is modelled on histories whose records carry a `thought` key, which every loop-built record does. A record without it would raise `KeyError`.
- CallingAgent.FunctionsAreCatalogued: states that the functions are stored and catalogued, but not which names appear. The names are stated by CallingAgent.StoreFunctions for any starting registry.

## Findings

| source | as written | input that shows it | evidently intended | confidence | as-written member | corrected member |
|---|---|---|---|---|---|---|
| Lab01_ReActAgent/2-react-with-function-calling/agents.py:108-109 | `run` calls `self.format_thought_history`, but only `_format_thought_history` exists, so every iteration with history raises `AttributeError` | a first reply with one tool call, then a reply with `final_answer` | the prompt is the template followed by the formatted history | not executed | ReAct.AsWrittenSecondTurnRaises | ReAct.CorrectedSecondTurnSeesHistory |
| Lab02_MCP/3-react-with-mcp/react-mcp-client.py:103-104 | the same call of the missing `format_thought_history` | a first reply with an incomplete action, then any reply | the prompt carries the formatted history | not executed | ReAct.AsWrittenStopsOnHistory | ReAct.CorrectedSendsHistory |
| Lab01_ReActAgent/2-react-with-function-calling/agents.py:75-76 | the formatter reads `pause_reflection`, but the loop writes records with key `pause`, so no `PAUSE:` line is ever printed | a step with `"pause": "wait"` and one action | the formatter reads `pause` | not executed | ReAct.AsWrittenDropsPause | ReAct.CorrectedShowsPause |
| Lab02_MCP/3-react-with-mcp/react-mcp-client.py:144 | `self.tools` is never assigned, so any complete action raises `AttributeError` | a step whose action names a tool and gives an input | actions are dispatched through a tool table | not executed | McpClient.OneCallScenario | ReAct.Dispatch |
| Lab02_MCP/3-react-with-mcp/react-mcp-client.py:95-104 | `run` never calls `_connect`, so the prompt's tool catalog is always `""` | a fresh client and any reply | `run` connects first and renders the catalog the server lists | not executed | McpClient.AsWrittenPromptHasNoCatalog | McpClient.Run |
