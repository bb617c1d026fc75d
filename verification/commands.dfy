/** Translation of a chat request's commands into the graph's input messages,
    and their recording in the run controller's state (`run_callback`). */
module CommandTranslation {
  import opened Wrappers
  import opened Messages

  const AddMessageType := "add-message"
  const AddToolResultType := "add-tool-result"

  /** The exception raised when a command's `type` names the other variant, so
      the attribute the branch reads does not exist on the parsed command. */
  datatype Error = MissingAttribute(name: string)

  /** A part contributes text when it is tagged "text" and its text is present
      and non-empty (Python's truthiness of `part.text`). */
  predicate Qualifies(p: MessagePart) {
    p.kind == "text" && p.text.Some? && p.text.value != ""
  }

  /** The texts of the qualifying parts, in part order. */
  function TextParts(parts: seq<MessagePart>): (r: seq<string>)
    ensures |r| <= |parts|
    ensures forall k :: 0 <= k < |r| ==> r[k] != ""
    ensures r == [] <==> forall i :: 0 <= i < |parts| ==> !Qualifies(parts[i])
  {
    if parts == [] then []
    else (if Qualifies(parts[0]) then [parts[0].text.value] else []) + TextParts(parts[1..])
  }

  /** The qualifying texts of two runs of parts are those of the first run
      followed by those of the second: part order is kept. */
  lemma {:induction false} TextPartsAppend(a: seq<MessagePart>, b: seq<MessagePart>)
    ensures TextParts(a + b) == TextParts(a) + TextParts(b)
  {
    if a == [] {
      assert a + b == b;
    } else {
      assert (a + b)[1..] == a[1..] + b;
      TextPartsAppend(a[1..], b);
    }
  }

  /** `" ".join(ts)`. */
  function Join(ts: seq<string>): string {
    if ts == [] then ""
    else if |ts| == 1 then ts[0]
    else ts[0] + " " + Join(ts[1..])
  }

  /** `s.split(" ")`: the pieces between single spaces. */
  function Split(s: string): (r: seq<string>)
    ensures |r| >= 1
  {
    if s == [] then [""]
    else
      var rest := Split(s[1..]);
      if s[0] == ' ' then [""] + rest else [[s[0]] + rest[0]] + rest[1..]
  }

  function TotalLength(ts: seq<string>): nat {
    if ts == [] then 0 else |ts[0]| + TotalLength(ts[1..])
  }

  /** Joining adds exactly one separator between consecutive texts. */
  lemma {:induction false} JoinLength(ts: seq<string>)
    requires ts != []
    ensures |Join(ts)| == TotalLength(ts) + |ts| - 1
  {
    if |ts| > 1 {
      JoinLength(ts[1..]);
    }
  }

  lemma {:induction false} SplitNoSpace(s: string)
    requires ' ' !in s
    ensures Split(s) == [s]
  {
    if s != [] {
      assert ' ' !in s[1..] by {
        forall k | 0 <= k < |s[1..]| ensures s[1..][k] != ' ' {
          assert s[1..][k] == s[k + 1];
        }
      }
      SplitNoSpace(s[1..]);
      assert [s[0]] + s[1..] == s;
    }
  }

  lemma {:induction false} SplitAtSpace(x: string, y: string)
    ensures Split(x + " " + y) == Split(x) + Split(y)
  {
    if x == [] {
      assert (x + " " + y)[1..] == y;
    } else {
      assert (x + " " + y)[1..] == x[1..] + " " + y;
      SplitAtSpace(x[1..], y);
    }
  }

  /** Joining is undone by splitting when no text holds a space: the content
      of a synthesized human message determines the texts it was built from. */
  lemma {:induction false} SplitJoin(ts: seq<string>)
    requires ts != []
    requires forall k :: 0 <= k < |ts| ==> ' ' !in ts[k]
    ensures Split(Join(ts)) == ts
  {
    if |ts| == 1 {
      SplitNoSpace(ts[0]);
    } else {
      SplitAtSpace(ts[0], Join(ts[1..]));
      SplitNoSpace(ts[0]);
      SplitJoin(ts[1..]);
    }
  }

  /** The command's `type` names the branch that reads an attribute the parsed
      variant lacks. */
  predicate Mismatched(c: Command) {
    (c.kind == AddMessageType && c.AddToolResult?) || (c.kind == AddToolResultType && c.AddMessage?)
  }

  /** The input messages one command contributes, or the exception it raises. */
  function Translate(c: Command): (r: Result<seq<Message>, Error>)
    ensures r.Failure? <==> Mismatched(c)
    ensures r.Success? ==> |r.value| <= 1
  {
    if c.kind == AddMessageType then
      match c
      case AddToolResult(_, _, _) => Failure(MissingAttribute("message"))
      case AddMessage(_, m) =>
        var texts := TextParts(m.parts);
        if texts == [] then Success([]) else Success([Human(Join(texts))])
    else if c.kind == AddToolResultType then
      match c
      case AddMessage(_, _) => Failure(MissingAttribute("result"))
      case AddToolResult(_, id, res) => Success([Tool(res, id, None)])
    else Success([])
  }

  /** An add-message command contributes one human message exactly when some
      part carries non-empty text, and that message holds the qualifying texts
      joined by single spaces; otherwise it contributes nothing. */
  lemma AddMessageContribution(c: Command)
    requires c.AddMessage? && c.kind == AddMessageType
    ensures Translate(c).Success?
    ensures |Translate(c).value| == 1 <==> exists i :: 0 <= i < |c.message.parts| && Qualifies(c.message.parts[i])
    ensures Translate(c).value != [] ==> Translate(c).value[0] == Human(Join(TextParts(c.message.parts)))
    ensures Translate(c).value != [] ==> Translate(c).value[0].content != ""
  {
    var texts := TextParts(c.message.parts);
    if texts != [] {
      JoinLength(texts);
    }
  }

  /** An add-tool-result command contributes one tool message carrying its
      tool call id; a command of any other type contributes nothing. */
  lemma OtherContributions(c: Command)
    ensures c.AddToolResult? && c.kind == AddToolResultType ==>
      Translate(c) == Success([Tool(c.result, c.toolCallId, None)])
    ensures c.kind != AddMessageType && c.kind != AddToolResultType ==> Translate(c) == Success([])
  {
  }

  /** Sequencing two results: the first exception wins, otherwise the messages
      are concatenated. */
  function Then(a: Result<seq<Message>, Error>, b: Result<seq<Message>, Error>): Result<seq<Message>, Error> {
    match a
    case Failure(e) => Failure(e)
    case Success(x) =>
      match b
      case Failure(e) => Failure(e)
      case Success(y) => Success(x + y)
  }

  /** The input messages of a command list: the contributions of the commands
      in command order, or the exception of the first command that raises. */
  function InputMessages(cmds: seq<Command>): (r: Result<seq<Message>, Error>)
    ensures r.Success? ==> |r.value| <= |cmds|
    ensures r.Failure? <==> exists i :: 0 <= i < |cmds| && Mismatched(cmds[i])
    decreases |cmds|
  {
    if cmds == [] then Success([])
    else
      var init := cmds[..|cmds| - 1];
      assert forall i :: 0 <= i < |init| ==> init[i] == cmds[i];
      Then(InputMessages(init), Translate(cmds[|cmds| - 1]))
  }

  /** Translating a concatenation of command lists is translating each in turn:
      the input messages follow the command order. */
  lemma {:induction false} InputMessagesAppend(a: seq<Command>, b: seq<Command>)
    ensures InputMessages(a + b) == Then(InputMessages(a), InputMessages(b))
    decreases |b|
  {
    if b == [] {
      assert a + b == a;
      if InputMessages(a).Success? {
        assert InputMessages(a).value + [] == InputMessages(a).value;
      }
    } else {
      var b', last := b[..|b| - 1], b[|b| - 1];
      assert (a + b)[..|a + b| - 1] == a + b';
      assert (a + b)[|a + b| - 1] == last;
      assert InputMessages(a + b) == Then(InputMessages(a + b'), Translate(last));
      assert InputMessages(b) == Then(InputMessages(b'), Translate(last));
      InputMessagesAppend(a, b');
      match InputMessages(a)
      case Failure(_) =>
      case Success(x) =>
        match InputMessages(b')
        case Failure(_) =>
        case Success(y) =>
          match Translate(last)
          case Failure(_) =>
          case Success(t) =>
            assert x + y + t == x + (y + t);
    }
  }

  /** A command contributes a message: a well-formed tool result, or a
      well-formed add-message with some qualifying part. */
  predicate Contributes(c: Command) {
    || (c.kind == AddToolResultType && c.AddToolResult?)
    || (c.kind == AddMessageType && c.AddMessage? && TextParts(c.message.parts) != [])
  }

  function CountContributing(cmds: seq<Command>): nat {
    if cmds == [] then 0
    else CountContributing(cmds[..|cmds| - 1]) + (if Contributes(cmds[|cmds| - 1]) then 1 else 0)
  }

  /** When no command raises, there are exactly as many input messages as
      contributing commands. */
  lemma {:induction false} InputMessagesCount(cmds: seq<Command>)
    requires InputMessages(cmds).Success?
    ensures |InputMessages(cmds).value| == CountContributing(cmds)
    decreases |cmds|
  {
    if cmds != [] {
      InputMessagesCount(cmds[..|cmds| - 1]);
    }
  }

  /** The command loop: builds the input messages one command at a time. */
  method TranslateCommands(commands: seq<Command>) returns (r: Result<seq<Message>, Error>)
    ensures r == InputMessages(commands)
    ensures r.Success? ==> |r.value| == CountContributing(commands)
  {
    var input: seq<Message> := [];
    var i := 0;
    while i < |commands|
      invariant 0 <= i <= |commands|
      invariant InputMessages(commands[..i]) == Success(input)
    {
      var command := commands[i];
      assert commands[..i + 1][..i] == commands[..i];
      assert InputMessages(commands[..i + 1]) == Then(InputMessages(commands[..i]), Translate(command));
      if command.kind == AddMessageType {
        match command
        case AddToolResult(_, _, _) =>
          r := Failure(MissingAttribute("message"));
          RaisesThroughout(commands, i + 1);
          return;
        case AddMessage(_, m) =>
          var textParts := TextParts(m.parts);
          if textParts != [] {
            input := input + [Human(Join(textParts))];
          } else {
            assert input + [] == input;
          }
      } else if command.kind == AddToolResultType {
        match command
        case AddMessage(_, _) =>
          r := Failure(MissingAttribute("result"));
          RaisesThroughout(commands, i + 1);
          return;
        case AddToolResult(_, toolCallId, result) =>
          input := input + [Tool(result, toolCallId, None)];
      } else {
        assert input + [] == input;
      }
      i := i + 1;
    }
    assert commands[..|commands|] == commands;
    r := Success(input);
    InputMessagesCount(commands);
  }

  /** An exception raised by a prefix of the commands is the exception of the
      whole list. */
  lemma RaisesThroughout(cmds: seq<Command>, n: nat)
    requires n <= |cmds|
    requires InputMessages(cmds[..n]).Failure?
    ensures InputMessages(cmds) == InputMessages(cmds[..n])
  {
    assert cmds == cmds[..n] + cmds[n..];
    InputMessagesAppend(cmds[..n], cmds[n..]);
  }

  /** The value of a state's "messages" entry: a list of stored messages, or
      any other value a request may carry there (null, a string, a number, an
      object), represented by its rendering. A stored message is the message's
      serialized record, represented by the message. */
  datatype Entry = MessageList(items: seq<Message>) | OtherValue(repr: string)

  /** The run controller's state dictionary: its "messages" entry, which may be
      absent, and its other entries, which the backend never touches. */
  datatype StateDict = StateDict(messages: Option<Entry>, other: map<string, string>)

  /** The state after the initialisation step: an absent state becomes an empty
      dictionary, and an absent "messages" entry becomes an empty list. */
  function Initialised(s: Option<StateDict>): (d: StateDict)
    ensures d.messages.Some?
  {
    var d := s.GetOr(StateDict(None, map[]));
    if d.messages.None? then d.(messages := Some(MessageList([]))) else d
  }

  /** The run callback's result and final state, from the state it starts
      with: the input messages, appended after the stored list; or the
      exception of the command loop; or, when the "messages" entry is not a
      list and there is something to append, the exception of the first
      append. An exception leaves the initialised state as it is. */
  function RunOutcome(s: Option<StateDict>, commands: seq<Command>): (Result<seq<Message>, Error>, StateDict) {
    var d := Initialised(s);
    match InputMessages(commands)
    case Failure(e) => (Failure(e), d)
    case Success(input) =>
      match d.messages.value
      case MessageList(items) => (Success(input), d.(messages := Some(MessageList(items + input))))
      case OtherValue(_) =>
        if input == [] then (Success(input), d) else (Failure(MissingAttribute("append")), d)
  }

  /** The messages already stored in a state, none when the state or its
      "messages" entry is absent. */
  predicate StoresList(s: Option<StateDict>) {
    s.None? || s.value.messages.None? || s.value.messages.value.MessageList?
  }

  function StoredMessages(s: Option<StateDict>): seq<Message>
    requires StoresList(s)
  {
    if s.Some? && s.value.messages.Some? then s.value.messages.value.items else []
  }

  function OtherEntries(s: Option<StateDict>): map<string, string> {
    if s.Some? then s.value.other else map[]
  }

  /** What a run does to the state. The other entries never change. When the
      "messages" entry is absent or a list, the result is the commands' input
      messages and they are appended, in order, after the stored messages,
      which stay as they were (nothing is appended on an exception). When the
      entry holds another value, the run raises exactly when there is an input
      message, and the entry is left as it was. */
  lemma RunOutcomeState(s: Option<StateDict>, commands: seq<Command>)
    ensures RunOutcome(s, commands).1.other == OtherEntries(s)
    ensures StoresList(s) ==> RunOutcome(s, commands).0 == InputMessages(commands)
    ensures StoresList(s) ==> var r := RunOutcome(s, commands).0;
      RunOutcome(s, commands).1.messages ==
        Some(MessageList(StoredMessages(s) + (if r.Success? then r.value else [])))
    ensures !StoresList(s) ==> RunOutcome(s, commands).1 == s.value
    ensures !StoresList(s) ==>
      (RunOutcome(s, commands).0.Failure? <==> InputMessages(commands).Failure? || InputMessages(commands).value != [])
  {
    if StoresList(s) && InputMessages(commands).Failure? {
      assert StoredMessages(s) + [] == StoredMessages(s);
    }
  }

  /** The controller of one run, whose state the callback updates in place. */
  class RunController {
    var state: Option<StateDict>

    constructor (initial: Option<StateDict>)
      ensures state == initial
    {
      state := initial;
    }
  }

  /** The run callback up to the start of graph execution: initialises the
      state, translates the commands and appends the input messages to the
      stored "messages" entry one at a time. */
  method RunCallback(controller: RunController, commands: seq<Command>) returns (r: Result<seq<Message>, Error>)
    modifies controller
    ensures controller.state.Some?
    ensures (r, controller.state.value) == RunOutcome(old(controller.state), commands)
  {
    if controller.state.None? {
      controller.state := Some(StateDict(None, map[]));
    }
    if controller.state.value.messages.None? {
      controller.state := Some(controller.state.value.(messages := Some(MessageList([]))));
    }
    ghost var start := controller.state.value;
    r := TranslateCommands(commands);
    if r.Failure? {
      return;
    }
    var inputMessages := r.value;
    assert start.messages.value.MessageList? ==> start.messages.value.items + inputMessages[..0] == start.messages.value.items;
    for i := 0 to |inputMessages|
      invariant i > 0 ==> start.messages.value.MessageList?
      invariant controller.state == Some(
        if start.messages.value.MessageList?
        then start.(messages := Some(MessageList(start.messages.value.items + inputMessages[..i])))
        else start)
    {
      var d := controller.state.value;
      match d.messages.value
      case OtherValue(_) =>
        r := Failure(MissingAttribute("append"));
        return;
      case MessageList(items) =>
        assert start.messages.value.items + inputMessages[..i + 1] == items + [inputMessages[i]];
        controller.state := Some(d.(messages := Some(MessageList(items + [inputMessages[i]]))));
    }
    assert inputMessages[..|inputMessages|] == inputMessages;
  }
}
