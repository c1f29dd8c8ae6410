/** The function-calling ReAct agent: the tool catalog it builds from its
    `Tools` object through the `ToolBox` registry, and its run, which is the
    shared ReAct step with tools looked up by attribute name. */
module CallingAgent {
  import opened Common
  import opened Text
  import opened Json
  import ToolBox
  import ReAct

  // ---------------------------------------------------------------------
  // _flatten
  // ---------------------------------------------------------------------

  /** The collection types `_flatten` descends into. */
  datatype Collection = ListOf | TupleOf | SetOf

  /** A value `_flatten` may meet: a collection of further values (a set in
      its iteration order), or anything else, which is a leaf. */
  datatype Nested<T> = Leaf(value: T) | Group(kind: Collection, items: seq<Nested<T>>)

  /** `_flatten(items)`: the leaves, depth first, left to right. */
  function Flatten<T>(xs: seq<Nested<T>>): seq<T>
    decreases xs
  {
    if |xs| == 0 then [] else Expand(xs[0]) + Flatten(xs[1..])
  }

  /** The leaves of one value: itself, or those of its items. */
  function Expand<T>(x: Nested<T>): seq<T>
    decreases x
  {
    match x
    case Leaf(v) => [v]
    case Group(_, ys) => Flatten(ys)
  }

  /** The number of leaves under `xs`. */
  function LeafCount<T>(xs: seq<Nested<T>>): nat
    decreases xs
  {
    if |xs| == 0 then 0
    else
      (match xs[0]
        case Leaf(_) => 1
        case Group(_, ys) => LeafCount(ys))
      + LeafCount(xs[1..])
  }

  /** Flattening concatenated values concatenates their leaves. */
  lemma {:induction false} FlattenAppend<T>(a: seq<Nested<T>>, b: seq<Nested<T>>)
    ensures Flatten(a + b) == Flatten(a) + Flatten(b)
    decreases |a|
  {
    if |a| > 0 {
      assert (a + b)[0] == a[0];
      assert (a + b)[1..] == a[1..] + b;
      FlattenAppend(a[1..], b);
      assert Flatten(a + b) == Expand(a[0]) + (Flatten(a[1..]) + Flatten(b));
    } else {
      assert a + b == b;
    }
  }

  /** A collection is replaced by its leaves in place, whatever its kind:
      the order is depth first and left to right. */
  lemma InPlace<T>(a: seq<Nested<T>>, kind: Collection, ys: seq<Nested<T>>, b: seq<Nested<T>>)
    ensures Flatten(a + [Group(kind, ys)] + b) == Flatten(a) + Flatten(ys) + Flatten(b)
  {
    FlattenAppend(a + [Group(kind, ys)], b);
    FlattenAppend(a, [Group(kind, ys)]);
    assert Flatten([Group(kind, ys)]) == Expand(Group(kind, ys)) + Flatten<T>([]);
  }

  /** One value per leaf. */
  lemma {:induction false} FlattenCount<T>(xs: seq<Nested<T>>)
    ensures |Flatten(xs)| == LeafCount(xs)
    decreases xs
  {
    if |xs| > 0 {
      FlattenCount(xs[1..]);
      if xs[0].Group? {
        FlattenCount(xs[0].items);
      }
    }
  }

  /** The values themselves, each as a leaf. */
  function Leaves<T>(vs: seq<T>): (xs: seq<Nested<T>>)
    ensures |xs| == |vs| && forall i :: 0 <= i < |vs| ==> xs[i] == Leaf(vs[i])
  {
    seq(|vs|, i requires 0 <= i < |vs| => Leaf(vs[i]))
  }

  /** Values that are not collections pass through unchanged, one each. */
  lemma {:induction false} FlattenLeaves<T>(vs: seq<T>)
    ensures Flatten(Leaves(vs)) == vs
  {
    if |vs| > 0 {
      assert Leaves(vs)[1..] == Leaves(vs[1..]);
      FlattenLeaves(vs[1..]);
      assert [vs[0]] + vs[1..] == vs;
    }
  }

  /** Flattening twice yields what flattening once does. */
  lemma FlattenIdempotent<T>(xs: seq<Nested<T>>)
    ensures Flatten(Leaves(Flatten(xs))) == Flatten(xs)
  {
    FlattenLeaves(Flatten(xs));
  }

  // ---------------------------------------------------------------------
  // _prepare_tools
  // ---------------------------------------------------------------------

  /** Python's `callable` on a tool candidate. */
  predicate Callable(item: ToolBox.Item) {
    match item
    case OtherItem(_, c) => c
    case _ => true
  }

  /** The `Tools` object, reduced to what the agent reads from it: its
      `user_functions` (the elements of the collection, when the attribute
      exists), its instance `__dict__` in insertion order, and the attribute
      lookup `getattr(tools, name, None)` filtered by `callable`. */
  datatype Tools = Tools(
    userFunctions: Option<seq<Nested<ToolBox.Item>>>,
    instanceDict: seq<(string, ToolBox.Item)>,
    find: string -> Option<ReAct.Tool>)

  /** The list comprehension over `__dict__.items()`: callable values whose
      key does not start with `_`, in order. */
  function PublicCallables(attrs: seq<(string, ToolBox.Item)>): (r: seq<ToolBox.Item>)
    ensures |r| <= |attrs|
    ensures forall v :: v in r <==> exists i :: 0 <= i < |attrs| && attrs[i].1 == v && Callable(v) && !StartsWith(attrs[i].0, "_")
  {
    if |attrs| == 0 then []
    else
      var rest := PublicCallables(attrs[1..]);
      assert forall i :: 1 <= i < |attrs| ==> attrs[i] == attrs[1..][i - 1];
      if Callable(attrs[0].1) && !StartsWith(attrs[0].0, "_") then [attrs[0].1] + rest else rest
  }

  /** The filter keeps the kept attributes in their original order: it
      distributes over a split of the dictionary. */
  lemma {:induction false} PublicCallablesAppend(a: seq<(string, ToolBox.Item)>, b: seq<(string, ToolBox.Item)>)
    ensures PublicCallables(a + b) == PublicCallables(a) + PublicCallables(b)
    decreases |a|
  {
    if |a| > 0 {
      assert (a + b)[0] == a[0];
      assert (a + b)[1..] == a[1..] + b;
      PublicCallablesAppend(a[1..], b);
      var hd := if Callable(a[0].1) && !StartsWith(a[0].0, "_") then [a[0].1] else [];
      assert PublicCallables(a) == hd + PublicCallables(a[1..]);
      assert PublicCallables(a + b) == hd + PublicCallables(a[1..] + b);
    } else {
      assert a + b == b;
    }
  }

  /** The candidates handed to `store`: `user_functions` when present,
      otherwise the public callable attributes, each a leaf. */
  function Candidates(tools: Tools): seq<Nested<ToolBox.Item>> {
    match tools.userFunctions
    case Some(fs) => fs
    case None => Leaves(PublicCallables(tools.instanceDict))
  }

  /** Without `user_functions`, the items stored are exactly the public
      callable attribute values, in dictionary order. */
  lemma CandidatesWithoutUserFunctions(tools: Tools)
    requires tools.userFunctions.None?
    ensures Flatten(Candidates(tools)) == PublicCallables(tools.instanceDict)
  {
    FlattenLeaves(PublicCallables(tools.instanceDict));
  }

  /** `_prepare_tools()`: the catalog of a fresh registry filled with the
      flattened candidates; the `TypeError` of an unsupported candidate
      escapes (from the agent's constructor). */
  function PrepareTools(tools: Tools): (r: Result<string>)
    ensures r.Err? <==> exists i :: 0 <= i < |Flatten(Candidates(tools))| && Flatten(Candidates(tools))[i].OtherItem?
    ensures r.Ok? ==> r.value == ToolBox.Describe(ToolBox.Store(ToolBox.New(), Flatten(Candidates(tools))).box)
  {
    match ToolBox.Store(ToolBox.New(), Flatten(Candidates(tools)))
    case Stored(box) => Ok(ToolBox.Describe(box))
    case StoreFailed(_, e) => Err(e)
  }

  /** Plain functions as registry items, in order. */
  function FunctionItems(fs: seq<ToolBox.Function>): (items: seq<ToolBox.Item>)
    ensures |items| == |fs| && forall i :: 0 <= i < |fs| ==> items[i] == ToolBox.FunctionItem(fs[i])
  {
    if |fs| == 0 then [] else [ToolBox.FunctionItem(fs[0])] + FunctionItems(fs[1..])
  }

  /** With plain functions as `user_functions`, preparing the tools
      succeeds and the catalog is that of the registry holding exactly
      those functions (see `StoreFunctions` for their names). */
  lemma FunctionsAreCatalogued(tools: Tools, fs: seq<ToolBox.Function>)
    requires tools.userFunctions == Some(Leaves(FunctionItems(fs)))
    ensures ToolBox.Store(ToolBox.New(), FunctionItems(fs)).Stored?
    ensures PrepareTools(tools) == Ok(ToolBox.Describe(ToolBox.Store(ToolBox.New(), FunctionItems(fs)).box))
  {
    var items := FunctionItems(fs);
    assert Candidates(tools) == Leaves(items);
    FlattenLeaves(items);
    StoreFunctions(ToolBox.New(), fs);
  }

  /** Storing plain functions succeeds and registers every name. */
  lemma {:induction false} StoreFunctions(tb: ToolBox.ToolBox, fs: seq<ToolBox.Function>)
    requires ToolBox.Valid(tb)
    ensures ToolBox.Store(tb, FunctionItems(fs)).Stored?
    ensures forall i :: 0 <= i < |fs| ==> fs[i].name in ToolBox.Names(ToolBox.Store(tb, FunctionItems(fs)).box)
    decreases |fs|
  {
    if |fs| > 0 {
      var items := FunctionItems(fs);
      var next := ToolBox.Register(tb, fs[0]);
      assert items[1..] == FunctionItems(fs[1..]);
      assert ToolBox.StoreOne(tb, items[0]) == Ok(next);
      StoreFunctions(next, fs[1..]);
      var done := ToolBox.Store(tb, items);
      assert done == ToolBox.Store(next, FunctionItems(fs[1..]));
      forall i | 0 <= i < |fs| ensures fs[i].name in ToolBox.Names(done.box) {
        if i > 0 {
          assert fs[i] == fs[1..][i - 1];
        }
      }
    }
  }

  // ---------------------------------------------------------------------
  // The agent
  // ---------------------------------------------------------------------

  /** The agent once constructed: its template and its catalog. */
  datatype Agent = Agent(template: ReAct.Template, tools: Tools, toolsDescription: string)

  /** `ReActAgent()`: the catalog is prepared at construction, so an
      unsupported candidate makes construction raise the `TypeError` of the
      first such candidate in flattened order; otherwise the agent keeps the
      template, the tools and the catalog of the registry holding them. */
  function NewAgent(template: ReAct.Template, tools: Tools): (r: Result<Agent>)
    ensures PrepareTools(tools).Ok? <==> r.Ok?
    ensures r.Err? <==> exists i :: 0 <= i < |Flatten(Candidates(tools))| && Flatten(Candidates(tools))[i].OtherItem?
    ensures r.Err? ==> exists i :: ToolBox.FirstUnsupported(Flatten(Candidates(tools)), i)
                                   && r.error == ToolBox.KindError(Flatten(Candidates(tools))[i].typeName)
    ensures r.Ok? ==> r.value == Agent(template, tools,
                                       ToolBox.Describe(ToolBox.Store(ToolBox.New(), Flatten(Candidates(tools))).box))
  {
    match PrepareTools(tools)
    case Ok(d) => Ok(Agent(template, tools, d))
    case Err(e) =>
      ToolBox.StoreFailsOnFirst(ToolBox.New(), Flatten(Candidates(tools)));
      Err(e)
  }

  /** `run(query)`: the shared ReAct loop over the rendered template, with
      actions dispatched through the `Tools` object's attributes. The
      catalog is not consulted when dispatching. */
  function Run(build: ReAct.Build, agent: Agent, loads: Loads, replies: seq<ReAct.Reply>): (r: ReAct.RunResult)
    ensures ReAct.LoopBuilt(r.history) && |r.prompts| <= |replies|
    ensures |replies| >= 1 ==> |r.prompts| >= 1 && r.prompts[0] == ReAct.Render(agent.template, agent.toolsDescription)
  {
    var r := ReAct.Run(build, ReAct.Render(agent.template, agent.toolsDescription), loads,
                       ReAct.Attributes(agent.tools.find), replies);
    if |replies| >= 1 then
      ReAct.FirstPromptIsTemplate(build, ReAct.Render(agent.template, agent.toolsDescription), loads,
                                  ReAct.Attributes(agent.tools.find), replies);
      r
    else r
  }

  // ---------------------------------------------------------------------
  // The two-turn scenario that shows the missing formatter
  // ---------------------------------------------------------------------

  /** A step that calls tool `name` with `input`. */
  function CallStep(name: string, input: Json): Json {
    JObject([("thought", JString("use a tool")),
             ("action", JArray([JObject([("tool_choice", JString(name)), ("tool_input", input)])]))])
  }

  /** A step that answers. */
  function AnswerStep(answer: Json): Json {
    JObject([("final_answer", answer)])
  }

  /** A first reply that calls an existing tool and a second that answers:
      as written the run raises `AttributeError` before the second model
      call; corrected it returns the answer, having shown the model the
      tool's observation. */
  lemma TwoTurnScenario(agent: Agent, loads: Loads, call: string, answer: string, name: string, out: string)
    requires name != ""
    requires agent.tools.find(name).Some? && agent.tools.find(name).value(JString("x")) == ReAct.Returned(out)
    requires loads(call) == Parsed(CallStep(name, JString("x")))
    requires loads(answer) == Parsed(AnswerStep(JString("done")))
    ensures Run(ReAct.AsWritten, agent, loads, [ReAct.Completion(call), ReAct.Completion(answer)]).status
              == ReAct.Escaped(ReAct.NoFormatter)
    ensures Run(ReAct.Corrected, agent, loads, [ReAct.Completion(call), ReAct.Completion(answer)]).status
              == ReAct.Answered(JString("done"))
  {
    var rendered := ReAct.Render(agent.template, agent.toolsDescription);
    var tools := ReAct.Attributes(agent.tools.find);
    var replies := [ReAct.Completion(call), ReAct.Completion(answer)];
    var step := CallStep(name, JString("x"));
    var act := JObject([("tool_choice", JString(name)), ("tool_input", JString("x"))]);
    GetAbsent(step, "final_answer");
    GetPair("thought", JString("use a tool"), "action", JArray([act]));
    GetPair("tool_choice", JString(name), "tool_input", JString("x"));
    assert ReAct.Observe(tools, act) == Ok(out);
    var first := ReAct.ProcessReply(loads, tools, call, []);
    assert first.Continued? && |first.history| == 1;
    ReAct.AsWrittenSecondTurnRaises(rendered, loads, tools, replies);
    ReAct.FirstTurnContinues(ReAct.Corrected, rendered, loads, tools, replies);
    var h := first.history;
    ReAct.LoopBuiltFormattable(h);
    assert Get(AnswerStep(JString("done")), "final_answer") == Some(JString("done"));
    assert ReAct.Prompt(ReAct.Corrected, rendered, h) == Ok(rendered + ReAct.FormatHistory(h));
    assert replies[1..][0] == ReAct.Completion(answer);
    assert ReAct.TakeTurn(ReAct.Corrected, rendered, loads, tools, replies[1..][0], h).Stopped?;
  }
}
