/** The graph's wiring: the agent node, then the tool node when the routing
    decision says so. These lemmas connect the routing decision with the tool
    node and follow one turn of the agent with an empty model key. */
module Graph {
  import opened Wrappers
  import opened Messages
  import opened Agent
  import opened ToolExecution
  import opened Charts

  /** The routing decision agrees with the tool node's early exits: when the
      run ends the tool node would answer nothing, and when it goes to the
      tools every call gets an answer unless a subagent raises. */
  lemma RouteAgreesWithToolNode(msgs: seq<Message>, b: ToolBackends)
    ensures ShouldCallTools(msgs) == End ==> ToolReplies(msgs, b) == Success([])
    ensures ShouldCallTools(msgs) == Tools ==> |LastToolCalls(msgs)| > 0
    ensures ShouldCallTools(msgs) == Tools && ToolReplies(msgs, b).Success? ==>
      |ToolReplies(msgs, b).value| == |LastToolCalls(msgs)| > 0
  {
  }

  /** With an empty model key the agent always routes to the tools, and the tool
      node answers the canned task call "task_001" with the subagent's result
      (or "Task completed" when the subagent leaves none), unless the
      subagent raises. */
  lemma {:induction false} MockTurnRunsTask(msgs: seq<Message>, model: seq<Message> -> Message, b: ToolBackends)
    ensures ShouldCallTools(msgs + AgentNode(msgs, false, model)) == Tools
    ensures var run := b.subagent("Complete the requested task");
      ToolReplies(msgs + AgentNode(msgs, false, model), b) ==
        match run
        case Crashed(reason) => Failure(reason)
        case Finished(result) => Success([Tool(result.GetOr("Task completed"), "task_001", Some("task_tool"))])
  {
    var after := msgs + AgentNode(msgs, false, model);
    assert after[|after| - 1] == MockResponse;
    var calls := LastToolCalls(after);
    assert calls == [ToolCall("task_001", "task_tool", map["task_description" := "Complete the requested task"])];
    assert calls[..0] == [];
    assert TaskDescription(calls[0]) == "Complete the requested task";
    assert ToolReplies(after, b) == ExecuteCalls(calls, b);
    assert ExecuteCalls(calls[..0], b) == Success([]);
    match b.subagent("Complete the requested task")
    case Crashed(_) =>
    case Finished(result) =>
      var reply := Tool(result.GetOr("Task completed"), "task_001", Some("task_tool"));
      assert ReplyTo(calls[0], b) == Success(reply);
      assert [] + [reply] == [reply];
  }

  /** The conversation after `n` rounds of the graph with an empty model key: the
      agent node, whose route is always "tools", then the tool node, whose
      edge leads back to the agent unconditionally; or the first subagent
      exception. */
  function MockRounds(msgs: seq<Message>, n: nat, model: seq<Message> -> Message, b: ToolBackends): Result<seq<Message>, string> {
    if n == 0 then Success(msgs)
    else
      match MockRounds(msgs, n - 1, model, b)
      case Failure(e) => Failure(e)
      case Success(conversation) =>
        var after := conversation + AgentNode(conversation, false, model);
        match ToolReplies(after, b)
        case Failure(e) => Failure(e)
        case Success(replies) => Success(after + replies)
  }

  /** With an empty model key a run never reaches the end: unless a subagent
      raises, every round adds the canned AI message and one tool reply, and
      the next agent turn routes to the tools again. Only the graph library's
      recursion limit stops it. */
  lemma {:induction false} MockRunNeverEnds(msgs: seq<Message>, n: nat, model: seq<Message> -> Message, b: ToolBackends)
    ensures MockRounds(msgs, n, model, b).Success? ==>
      var conversation := MockRounds(msgs, n, model, b).value;
      |conversation| == |msgs| + 2 * n
      && ShouldCallTools(conversation + AgentNode(conversation, false, model)) == Tools
  {
    if n > 0 {
      MockRunNeverEnds(msgs, n - 1, model, b);
      var previous := MockRounds(msgs, n - 1, model, b);
      if previous.Success? {
        MockTurnRunsTask(previous.value, model, b);
      }
    }
    var conversation := MockRounds(msgs, n, model, b);
    if conversation.Success? {
      MockTurnRunsTask(conversation.value, model, b);
    }
  }

  /** When the chart tool is `DisplayGraph` followed by a serializer, the reply
      to a chart call carries the serialized record of its plot type ("bar"
      when the call gives none). */
  lemma ChartToolReply(call: ToolCall, b: ToolBackends, serialize: ChartData -> string)
    requires call.name == "display_graph"
    requires forall p :: b.graph(p) == Returned(serialize(DisplayGraph(p)))
    ensures ReplyTo(call, b) ==
      Success(Tool(serialize(DisplayGraph(Arg(call, "plot_type", "bar"))), call.id, Some("display_graph")))
    ensures "plot_type" !in call.args ==>
      ReplyTo(call, b).value.content == serialize(Chart(["Q1", "Q2", "Q3", "Q4"], [120, 150, 180, 200],
        "Quarterly Sales", Some("Quarter"), Some("Sales (thousands)")))
  {
  }

  /** With an injective serializer, chart calls for different plot types get
      different replies: the reply tells the front end which chart to draw. */
  lemma ChartRepliesDistinct(c1: ToolCall, c2: ToolCall, b: ToolBackends, serialize: ChartData -> string)
    requires c1.name == "display_graph" && c2.name == "display_graph"
    requires forall p :: b.graph(p) == Returned(serialize(DisplayGraph(p)))
    requires forall x, y :: serialize(x) == serialize(y) ==> x == y
    requires Arg(c1, "plot_type", "bar") != Arg(c2, "plot_type", "bar")
    ensures ReplyTo(c1, b).value.content != ReplyTo(c2, b).value.content
  {
    ChartToolReply(c1, b, serialize);
    ChartToolReply(c2, b, serialize);
    DisplayGraphInjective(Arg(c1, "plot_type", "bar"), Arg(c2, "plot_type", "bar"));
  }
}
