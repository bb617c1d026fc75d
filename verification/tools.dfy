/** The tool node: one tool message per tool call of the last message. The
    tool bodies are parameters; the subagent's failure is not caught and ends
    the node, the other tools' failures become error text. */
module ToolExecution {
  import opened Wrappers
  import opened Messages

  /** A tool invocation either returns its output or raises. */
  datatype ToolOutcome = Returned(output: string) | Raised(reason: string)

  /** A subagent run either finishes, with the "result" entry of its final
      state when that entry exists, or raises. The subagent's state always
      carries a "result" entry, so a run of the real subagent never finishes
      with None; the case is kept so that the node's fallback text is modelled. */
  datatype SubagentRun = Finished(result: Option<string>) | Crashed(reason: string)

  /** The tools the node dispatches to: the subagent graph (by task
      description), the weather tool (by location and unit), the product
      search (by query) and the chart tool (by plot type). */
  datatype ToolBackends = ToolBackends(
    subagent: string -> SubagentRun,
    weather: (string, string) -> ToolOutcome,
    search: string -> ToolOutcome,
    graph: string -> ToolOutcome)

  /** `args.get(key, default)`. */
  function Arg(call: ToolCall, key: string, default: string): string {
    if key in call.args then call.args[key] else default
  }

  function TaskDescription(call: ToolCall): string {
    Arg(call, "task_description", "")
  }

  /** A call that raises out of the node: a task whose subagent crashes. */
  predicate Crashes(call: ToolCall, b: ToolBackends) {
    call.name == "task_tool" && b.subagent(TaskDescription(call)).Crashed?
  }

  /** The output of a guarded invocation: the tool's output, or the error
      prefix followed by the exception's text. */
  function Caught(outcome: ToolOutcome, errorPrefix: string): string {
    match outcome
    case Returned(output) => output
    case Raised(reason) => errorPrefix + reason
  }

  /** The guarded tools' outcome for a call; None for the task tool and for
      tools the node does not know. */
  function GuardedOutcome(call: ToolCall, b: ToolBackends): Option<ToolOutcome> {
    if call.name == "get_weather" then Some(b.weather(Arg(call, "location", "unknown"), Arg(call, "unit", "celsius")))
    else if call.name == "search_products" then Some(b.search(Arg(call, "query", "")))
    else if call.name == "display_graph" then Some(b.graph(Arg(call, "plot_type", "bar")))
    else None
  }

  /** The tool message answering one call, or the subagent's exception. */
  function ReplyTo(call: ToolCall, b: ToolBackends): (r: Result<Message, string>)
    ensures r.Failure? <==> Crashes(call, b)
    ensures r.Success? ==> r.value == Tool(r.value.content, call.id, Some(call.name))
  {
    if call.name == "task_tool" then
      match b.subagent(TaskDescription(call))
      case Crashed(reason) => Failure(reason)
      case Finished(result) => Success(Tool(result.GetOr("Task completed"), call.id, Some(call.name)))
    else if call.name == "get_weather" then
      var location := Arg(call, "location", "unknown");
      var unit := Arg(call, "unit", "celsius");
      Success(Tool(Caught(b.weather(location, unit), "Error fetching weather for " + location + ": "),
                   call.id, Some(call.name)))
    else if call.name == "search_products" then
      var query := Arg(call, "query", "");
      Success(Tool(Caught(b.search(query), "Error searching products for " + query + ": "),
                   call.id, Some(call.name)))
    else if call.name == "display_graph" then
      var plotType := Arg(call, "plot_type", "bar");
      Success(Tool(Caught(b.graph(plotType), "Error displaying graph with plot_type " + plotType + ": "),
                   call.id, Some(call.name)))
    else
      Success(Tool("Executed tool " + call.name, call.id, Some(call.name)))
  }

  /** What a reply says: a task's subagent result ("Task completed" when it
      leaves none), a guarded tool's output unchanged when it returns, an
      error text ending in the exception's text when it raises, a fixed
      acknowledgement naming an unknown tool. */
  lemma ReplyContent(call: ToolCall, b: ToolBackends)
    ensures call.name == "task_tool" && b.subagent(TaskDescription(call)).Finished? ==>
      ReplyTo(call, b).value.content == b.subagent(TaskDescription(call)).result.GetOr("Task completed")
    ensures call.name != "task_tool" ==> ReplyTo(call, b).Success?
    ensures GuardedOutcome(call, b).Some? && GuardedOutcome(call, b).value.Returned? ==>
      ReplyTo(call, b).value.content == GuardedOutcome(call, b).value.output
    ensures GuardedOutcome(call, b).Some? && GuardedOutcome(call, b).value.Raised? ==>
      var content, reason := ReplyTo(call, b).value.content, GuardedOutcome(call, b).value.reason;
      |content| >= 6 + |reason| && content[..6] == "Error " && content[|content| - |reason|..] == reason
    ensures call.name != "task_tool" && GuardedOutcome(call, b).None? ==>
      ReplyTo(call, b).value.content == "Executed tool " + call.name
  {
    var outcome := GuardedOutcome(call, b);
    if outcome.Some? && outcome.value.Raised? {
      var reason := outcome.value.reason;
      if call.name == "get_weather" {
        ErrorText("Error fetching weather for " + Arg(call, "location", "unknown") + ": ", reason);
      } else if call.name == "search_products" {
        ErrorText("Error searching products for " + Arg(call, "query", "") + ": ", reason);
      } else {
        assert "Error displaying graph with plot_type "[..6] == "Error ";
        ErrorText("Error displaying graph with plot_type " + Arg(call, "plot_type", "bar") + ": ", reason);
      }
    }
  }

  lemma ErrorText(prefix: string, reason: string)
    requires |prefix| >= 6 && prefix[..6] == "Error "
    ensures var content := prefix + reason;
      |content| >= 6 + |reason| && content[..6] == "Error " && content[|content| - |reason|..] == reason
  {
    var content := prefix + reason;
    assert content[..6] == prefix[..6];
    assert content[|content| - |reason|..] == reason;
  }

  /** The replies to a list of calls, in call order, or the first subagent
      exception. */
  function ExecuteCalls(calls: seq<ToolCall>, b: ToolBackends): (r: Result<seq<Message>, string>)
    ensures r.Failure? <==> exists i :: 0 <= i < |calls| && Crashes(calls[i], b)
    ensures r.Success? ==> |r.value| == |calls|
    ensures r.Success? ==> forall i :: 0 <= i < |calls| ==>
      ReplyTo(calls[i], b).Success? && r.value[i] == ReplyTo(calls[i], b).value
    decreases |calls|
  {
    if calls == [] then Success([])
    else
      var init := calls[..|calls| - 1];
      assert forall i :: 0 <= i < |init| ==> init[i] == calls[i];
      match ExecuteCalls(init, b)
      case Failure(e) => Failure(e)
      case Success(replies) =>
        match ReplyTo(calls[|calls| - 1], b)
        case Failure(e) => Failure(e)
        case Success(m) => Success(replies + [m])
  }

  /** The tool calls of the last message, none for an empty conversation. */
  function LastToolCalls(msgs: seq<Message>): seq<ToolCall> {
    if msgs == [] then [] else ToolCallsOf(msgs[|msgs| - 1])
  }

  /** The tool node's output for a conversation. */
  function ToolReplies(msgs: seq<Message>, b: ToolBackends): Result<seq<Message>, string> {
    if LastToolCalls(msgs) == [] then Success([]) else ExecuteCalls(LastToolCalls(msgs), b)
  }

  /** A subagent exception raised within a prefix of the calls is the
      exception of the whole node. */
  lemma {:induction false} CrashPropagates(calls: seq<ToolCall>, n: nat, b: ToolBackends)
    requires n <= |calls|
    requires ExecuteCalls(calls[..n], b).Failure?
    ensures ExecuteCalls(calls, b) == ExecuteCalls(calls[..n], b)
    decreases |calls|
  {
    if n < |calls| {
      var init := calls[..|calls| - 1];
      assert init[..n] == calls[..n];
      CrashPropagates(init, n, b);
    } else {
      assert calls[..n] == calls;
    }
  }

  /** The body of the node's loop for one call, the imperative form of
      `ReplyTo`: invokes the tool the call names and builds its reply, or
      raises the subagent's exception. */
  method DispatchCall(call: ToolCall, b: ToolBackends) returns (r: Result<Message, string>)
    ensures r == ReplyTo(call, b)
  {
    if call.name == "task_tool" {
      var finalState := b.subagent(Arg(call, "task_description", ""));
      if finalState.Crashed? {
        return Failure(finalState.reason);
      }
      r := Success(Tool(finalState.result.GetOr("Task completed"), call.id, Some(call.name)));
    } else if call.name == "get_weather" {
      var location := Arg(call, "location", "unknown");
      var unit := Arg(call, "unit", "celsius");
      match b.weather(location, unit)
      case Returned(weatherResult) =>
        r := Success(Tool(weatherResult, call.id, Some(call.name)));
      case Raised(e) =>
        r := Success(Tool("Error fetching weather for " + location + ": " + e, call.id, Some(call.name)));
    } else if call.name == "search_products" {
      var query := Arg(call, "query", "");
      match b.search(query)
      case Returned(searchResult) =>
        r := Success(Tool(searchResult, call.id, Some(call.name)));
      case Raised(e) =>
        r := Success(Tool("Error searching products for " + query + ": " + e, call.id, Some(call.name)));
    } else if call.name == "display_graph" {
      var plotType := Arg(call, "plot_type", "bar");
      match b.graph(plotType)
      case Returned(graphResult) =>
        r := Success(Tool(graphResult, call.id, Some(call.name)));
      case Raised(e) =>
        r := Success(Tool("Error displaying graph with plot_type " + plotType + ": " + e, call.id, Some(call.name)));
    } else {
      r := Success(Tool("Executed tool " + call.name, call.id, Some(call.name)));
    }
  }

  /** The tool node: answers every tool call of the last message, in call
      order, with a tool message carrying the call's id and name. */
  method ToolExecutorNode(msgs: seq<Message>, b: ToolBackends) returns (r: Result<seq<Message>, string>)
    ensures r == ToolReplies(msgs, b)
    ensures r.Failure? <==> exists i :: 0 <= i < |LastToolCalls(msgs)| && Crashes(LastToolCalls(msgs)[i], b)
    ensures r.Success? ==> |r.value| == |LastToolCalls(msgs)|
    ensures r.Success? ==> forall i :: 0 <= i < |r.value| ==>
      r.value[i].Tool? && r.value[i].toolCallId == LastToolCalls(msgs)[i].id
      && r.value[i].name == Some(LastToolCalls(msgs)[i].name)
    ensures r.Success? ==> forall i :: 0 <= i < |r.value| ==>
      r.value[i] == ReplyTo(LastToolCalls(msgs)[i], b).value
  {
    if msgs == [] {
      return Success([]);
    }
    var lastMessage := msgs[|msgs| - 1];
    if !lastMessage.AI? || lastMessage.toolCalls == [] {
      return Success([]);
    }
    var calls := lastMessage.toolCalls;
    var toolMessages: seq<Message> := [];
    for i := 0 to |calls|
      invariant ExecuteCalls(calls[..i], b) == Success(toolMessages)
    {
      assert calls[..i + 1][..i] == calls[..i];
      var reply := DispatchCall(calls[i], b);
      match reply
      case Failure(e) =>
        r := Failure(e);
        CrashPropagates(calls, i + 1, b);
        return;
      case Success(message) =>
        toolMessages := toolMessages + [message];
    }
    assert calls[..|calls|] == calls;
    r := Success(toolMessages);
  }
}
