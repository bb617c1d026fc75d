# Assistant transport backend: command translation, routing and tool dispatch

This project models the deterministic core of the chat backend in
`agent/main.py`. The backend receives a chat request made of commands. It turns
those commands into input messages for a LangGraph graph. The graph alternates
between an agent node, which calls the language model, and a tool node, which
answers the model's tool calls.

The model covers five parts of that backend:

- **Command translation** (`CommandTranslation`, `commands.dfy`). The command
  loop of the run callback becomes the method `TranslateCommands`, specified by
  the function `InputMessages`. An add-message command yields one human message
  whose content is the texts of its non-empty text parts, joined by single
  spaces. If no part qualifies, it yields nothing. An add-tool-result command
  yields one tool message carrying its tool call id. Any other command type
  yields nothing. The run controller is a class whose `state` the method
  `RunCallback` initialises and then extends with the input messages, in order.
- **System prompt and agent response** (`Agent`, `agent.dfy`). The model's input
  is the conversation with the system prompt prepended, unless a system message
  is already present. Without an API key the agent answers with a canned AI
  message that calls `task_tool`.
- **Routing** (`Agent.ShouldCallTools`). The run goes to the tool node exactly
  when the last message is an AI message with tool calls.
- **Tool dispatch** (`ToolExecution`, `tools.dfy`). The tool node is the method
  `ToolExecutorNode`, specified by `ToolReplies`. It answers each tool call of
  the last message with one tool message, in call order, carrying the call's id
  and name. The tools themselves are parameters (`ToolBackends`). A failing
  weather, product-search or chart tool becomes error text. A failing subagent
  is not caught, so the whole node raises.
- **Chart data** (`Charts`, `charts.dfy`). `display_graph` gives a fixed series
  for "bar", "line" and "pie", and an error record naming any other plot type.

`Graph` (`graph.dfy`) relates the routing decision to the tool node.
`Messages` and `Wrappers` hold the shared datatypes.

Requests are parsed by shape, but commands are dispatched on their free `type`
string. So a command can carry the type of the other variant. Then the branch
reads an attribute the command does not have, and Python raises. The model
keeps this as an error result (`MissingAttribute`). In that case the run state
has already been initialised, and nothing has been appended to it.

The texts of one add-message command are joined with a single space, exactly as
the backend does.

The run state comes from the request and may hold any value under
"messages". When that value is not a list, the first append raises. The model
keeps this case too: nothing is appended, and the run raises exactly when
there is an input message.

When the model key is empty, the agent always calls `task_tool`, and the
tool node always leads back to the agent. So such a run never reaches the end
of the graph (`Graph.MockRunNeverEnds`).

## Model

| member | source | states |
|---|---|---|
| `CommandTranslation.TextParts` | agent/main.py:581-584 | The kept texts are never empty and are no more than the parts. The list is empty exactly when no part is tagged "text" with non-empty text. |
| `CommandTranslation.TextPartsAppend` | agent/main.py:581-584 | Text extraction distributes over concatenation of part lists, so texts keep part order. |
| `CommandTranslation.JoinLength` | agent/main.py:586 | `Join`, the single-space join of the texts, is specified here. The joined length is the texts' total length plus one for each gap between texts. |
| `CommandTranslation.SplitJoin` | agent/main.py:586 | When no text holds a space, `Split` on spaces undoes `Join`: splitting the joined content on spaces gives back the texts in order. |
| `CommandTranslation.Translate` | agent/main.py:579-594 | A command raises exactly when its type names the other variant; otherwise it contributes at most one message. |
| `CommandTranslation.AddMessageContribution` | agent/main.py:579-588 | A well-formed add-message command yields one human message exactly when some part qualifies. That message holds the qualifying texts joined by single spaces and is non-empty. Otherwise it yields nothing. |
| `CommandTranslation.OtherContributions` | agent/main.py:589-594 | An add-tool-result command yields one tool message with its tool call id and result. A command of any other type yields nothing. |
| `CommandTranslation.InputMessages` | agent/main.py:575-594 | The command list raises exactly when some command is mismatched. Otherwise it yields no more messages than commands. |
| `CommandTranslation.InputMessagesAppend` | agent/main.py:578-594 | Translating a concatenation of command lists translates each list in turn. Input messages follow command order, and the first exception wins. |
| `CommandTranslation.InputMessagesCount` | agent/main.py:578-594 | Without an exception, the number of input messages equals the number of contributing commands. |
| `CommandTranslation.RaisesThroughout` | agent/main.py:578-594 | An exception raised within a prefix of the commands is the result of the whole loop. |
| `CommandTranslation.TranslateCommands` | agent/main.py:575-594 | The loop's result is `InputMessages` of the commands. On success it holds one message per contributing command. |
| `CommandTranslation.RunController.constructor` | agent/main.py:629 | A run starts with the request's state, which may be absent. |
| `CommandTranslation.Initialised` | agent/main.py:570-573 | After initialisation the state always has a "messages" entry. |
| `CommandTranslation.RunOutcomeState` | agent/main.py:570-598 | Other entries never change. With a list (or no) "messages" entry, the result is the commands' input messages, appended in order after the unchanged stored ones; nothing is appended on an exception. With a non-list entry, the state is left as it was and the run raises exactly when the loop raises or there is an input message. |
| `CommandTranslation.RunCallback` | agent/main.py:567-598 | The returned result and the controller's new state are exactly `RunOutcome` of the old state and the commands. |
| `Agent.WithSystemPrompt` | agent/main.py:327-332 | The result always holds a system message and ends with the original conversation. It is one longer, starting with the system prompt, exactly when the conversation had no system message. |
| `Agent.WithSystemPromptIdempotent` | agent/main.py:327-332 | Preparing the model's input twice equals preparing it once. |
| `Agent.AgentNode` | agent/main.py:327-350 | The node returns one message. Without an API key it is an AI message with exactly one tool call. |
| `Agent.RouteDecision` | agent/main.py:353-366 | `ShouldCallTools`, the routing decision after the agent node, is specified here. An empty conversation ends the run. The route is "tools" exactly when the last message is an AI message with a non-empty list of tool calls. |
| `Agent.RouteDependsOnLastOnly` | agent/main.py:360-366 | Two conversations with the same last message take the same route. |
| `ToolExecution.ReplyTo` | agent/main.py:386-498 | A call raises exactly when it is a task whose subagent raises. Otherwise its reply is a tool message with the call's id and name. |
| `ToolExecution.ReplyContent` | agent/main.py:391-498 | A finished task's reply is the subagent's result, or "Task completed" when it leaves none. Every other call gets a reply. A guarded tool's output passes through unchanged. A raising guarded tool yields text starting "Error " and ending with the exception's text. An unknown tool yields "Executed tool " and its name. |
| `ToolExecution.ExecuteCalls` | agent/main.py:385-501 | The node raises exactly when some task call's subagent raises. Otherwise it gives one reply per call, in call order: reply i is `ReplyTo` of call i, with that call's id and name. |
| `ToolExecution.CrashPropagates` | agent/main.py:391-417 | A subagent exception within a prefix of the calls is the result of the whole node. |
| `ToolExecution.DispatchCall` | agent/main.py:386-498 | The loop body for one call returns exactly `ReplyTo` of that call: the chosen tool's reply, or the subagent's exception. |
| `ToolExecution.ToolExecutorNode` | agent/main.py:369-501 | The node's result is `ToolReplies`. With no messages or no tool calls it is empty. Otherwise it has one tool message per call, in order, with the call's id and name, and reply i is `ReplyTo` of call i, unless a subagent raises. |
| `Charts.DisplayGraph` | agent/main.py:217-250 | "bar", "line" and "pie", and only those, give a chart with equally many labels and values, all positive. Any other type gives an error naming it. |
| `Charts.ChartShapes` | agent/main.py:217-246 | Bar and pie charts have 4 points and line charts 6. The pie's shares add up to 100. Only bar and line charts label their axes. |
| `Charts.DisplayGraphRoundTrip` | agent/main.py:217-250 | The plot type can be recovered from every record, error records included. |
| `Charts.DisplayGraphInjective` | agent/main.py:217-250 | Distinct plot types never give the same record. |
| `Graph.RouteAgreesWithToolNode` | agent/main.py:355-380 | When the route ends the run, the tool node would answer nothing. When it goes to the tools, there is at least one call, and each call gets an answer unless a subagent raises. |
| `Graph.MockTurnRunsTask` | agent/main.py:338-347 | With an empty API key the agent always routes to the tools. The tool node then answers call "task_001" of `task_tool` with the subagent's result, unless the subagent raises. (The "Task completed" fallback is covered too, though the real subagent always sets a result.) |
| `Graph.MockRunNeverEnds` | agent/main.py:506-532 | `MockRounds` runs `n` agent-and-tools rounds. With an empty API key, unless a subagent raises, every agent-and-tools round adds two messages and the next route is again "tools", so the run never reaches the end. |
| `Graph.ChartToolReply` | agent/main.py:467-478 | When the chart tool is `DisplayGraph` followed by a serializer, a chart call's reply carries the serialized record for its plot type, or for "bar" when the call gives none. |
| `Graph.ChartRepliesDistinct` | agent/main.py:467-478 | With an injective serializer, chart calls for different plot types get different reply contents. |

## Left out

- The web server is not modelled: the FastAPI app, CORS, the `/assistant` and `/health` endpoints, the lifespan hook and `main`. They are I/O and configuration.
- Logging and log-level selection are not modelled. They are side effects only.
- The language model calls are not modelled. `AgentNode` takes the model as a function parameter. The subagent's own node (its model call and its canned result) and the subagent graph are abstracted into the `subagent` parameter of `ToolBackends`.
- The tool bodies run by the tool node are parameters: the weather tool (whose values are random; the model makes each tool a fixed function of its arguments, so identical calls within one node get identical replies), the product search and the chart tool. `Charts.DisplayGraph` models the chart tool's body separately, as the record before JSON serialization.
- Graph compilation, the add-messages reducer, streaming (`graph.astream`, `append_langgraph_event`, `get_tool_call_subgraph_state`), `create_run` and `DataStreamResponse` are library code and are not modelled. `RunCallback` stops where graph execution starts.
- Serialization is opaque. `json.dumps` output is not modelled. `str(command.result)` is the tool-result command's string field. `model_dump()` is represented by the message itself. A stored "messages" list comes from the client and may hold any JSON values; the model types its items as messages, which it only carries along.
- AgentNode: building the chat-model client and binding its tools (agent/main.py:318-325), and building the subagent's client (agent/main.py:262-266), are assumed to succeed without a key. The client library may refuse an unset key. In that case only an empty key reaches the canned response.
- LangGraph's recursion limit, which is what eventually stops a run without a model key, is not modelled.
- The task tool's artifact, which carries the subagent's final state, is not modelled.
- A message part's `image` and a user message's `role` are carried but never read, as in the source.
- Tool-call arguments are modelled as strings. Non-string argument values are not represented.
- A tool call missing its `id` or `name` key would raise `KeyError`; every modelled tool call has both.
- The front-end reconciliation of snapshots with pending commands is not part of this model. Its source is not among the modelled files.
