/** The agent node's preparation of the model's input, its response when no
    model is configured, and the routing decision taken after it. */
module Agent {
  import opened Wrappers
  import opened Messages

  const SystemPromptText: string :=
    "When you call a tool and receive a result, the result is automatically displayed in the UI. "
    + "DO NOT repeat, explain, or output the tool's result data in your response. "
    + "DO NOT output JSON data, base64-encoded data, or raw tool results. "
    + "DO NOT format tool results as Markdown images (e.g., ![title](data:image/...)) or code blocks. "
    + "Simply acknowledge that the requested action has been completed. "
    + "For display_graph tool: The graph is already displayed in the UI component, so just confirm it was displayed."

  const SystemPrompt: Message := System(SystemPromptText)

  /** The messages handed to the model: the conversation, preceded by the
      system prompt unless the conversation already holds a system message. */
  function WithSystemPrompt(msgs: seq<Message>): (r: seq<Message>)
    ensures HasSystem(r)
    ensures |r| == |msgs| + (if HasSystem(msgs) then 0 else 1)
    ensures r[|r| - |msgs|..] == msgs
    ensures |r| != |msgs| ==> r[0] == SystemPrompt
  {
    if HasSystem(msgs) then msgs
    else
      var r := [SystemPrompt] + msgs;
      assert r[0].System?;
      r
  }

  /** Preparing the model's input twice is preparing it once. */
  lemma WithSystemPromptIdempotent(msgs: seq<Message>)
    ensures WithSystemPrompt(WithSystemPrompt(msgs)) == WithSystemPrompt(msgs)
  {
  }

  /** The canned response used when no model API key is configured. */
  const MockResponse: Message :=
    AI("I'll help you with that task.",
       [ToolCall("task_001", "task_tool", map["task_description" := "Complete the requested task"])])

  /** The agent node's output: one message, the model's answer to the prepared
      input when a key is configured (the model is a parameter), the canned
      response otherwise. `hasApiKey` is whether the key is set and
      non-empty; an empty key counts as missing. */
  function AgentNode(msgs: seq<Message>, hasApiKey: bool, model: seq<Message> -> Message): (r: seq<Message>)
    ensures |r| == 1
    ensures !hasApiKey ==> r[0].AI? && |r[0].toolCalls| == 1
  {
    [if hasApiKey then model(WithSystemPrompt(msgs)) else MockResponse]
  }

  datatype Route = Tools | End

  /** Whether the graph continues to the tool node after the agent. */
  function ShouldCallTools(msgs: seq<Message>): Route {
    if msgs == [] then End
    else if ToolCallsOf(msgs[|msgs| - 1]) != [] then Tools
    else End
  }

  /** The route is "tools" exactly when the last message is an AI message with
      tool calls: an empty conversation, or one ending in any other message,
      ends the run. */
  lemma RouteDecision(msgs: seq<Message>)
    ensures msgs == [] ==> ShouldCallTools(msgs) == End
    ensures ShouldCallTools(msgs) == Tools <==>
      (|msgs| > 0 && msgs[|msgs| - 1].AI? && |msgs[|msgs| - 1].toolCalls| > 0)
  {
  }

  /** Only the last message decides the route. */
  lemma RouteDependsOnLastOnly(p: seq<Message>, q: seq<Message>, m: Message)
    ensures ShouldCallTools(p + [m]) == ShouldCallTools(q + [m])
  {
  }
}
