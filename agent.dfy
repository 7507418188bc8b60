/**
 * The agent (google_meet_agent/agent.py): settings validation, one-time
 * setup, the bounded tool-calling conversation with the language model,
 * the never-raising tool wrapper and the mapping of a query's outcome to an
 * `AgentResponse`.
 *
 * The language model is an oracle from the tool list and the transcript so
 * far to a reply or an exception; the tool invoker is an oracle from a tool
 * name and input to a result or an exception (`ComposioInvoker` builds one
 * from `Tools.ExecuteGoogleMeetTool`).
 */
module Agent {
  import opened Values
  import opened Errors
  import opened Sdk
  import Tools
  import Auth

  // -------------------------------------------------------------- settings

  /** The settings the agent reads. */
  datatype Settings = Settings(
    composioApiKey: string,
    anthropicApiKey: string,
    googleMeetUserId: string,
    agentMaxTurns: int,
    oauthTimeout: int)

  const MissingComposioKeyMessage := "COMPOSIO_API_KEY is required. Get one from https://app.composio.dev"
  const MissingAnthropicKeyMessage := "ANTHROPIC_API_KEY is required. Get one from https://console.anthropic.com"

  /**
   * `_validate_settings`: a ConfigurationError exactly when a key is empty,
   * naming the integration platform's key when both are.
   */
  function ValidateSettings(composioApiKey: string, anthropicApiKey: string): (r: Option<AgentError>)
    ensures r.None? <==> composioApiKey != "" && anthropicApiKey != ""
    ensures r.Some? ==> r.value.kind == Configuration && r.value.cause.None?
    ensures composioApiKey == "" ==> r == Some(ConfigurationError(MissingComposioKeyMessage, None))
    ensures composioApiKey != "" && anthropicApiKey == "" ==> r == Some(ConfigurationError(MissingAnthropicKeyMessage, None))
  {
    if composioApiKey == "" then Some(ConfigurationError(MissingComposioKeyMessage, None))
    else if anthropicApiKey == "" then Some(ConfigurationError(MissingAnthropicKeyMessage, None))
    else None
  }

  // ---------------------------------------------------------- conversation

  /** A content block of a model reply. */
  datatype Block =
    | TextBlock(text: string)
    | ToolUseBlock(id: string, name: string, input: Value)
      /** Any other block type; it has no `text`. */
    | OtherBlock(kind: string)

  /** A requested tool call. */
  datatype ToolCall = ToolCall(id: string, name: string, input: Value)

  /** A `tool_result` entry; `content` is the value whose JSON text the source sends. */
  datatype ToolResult = ToolResult(toolUseId: string, content: Value)

  datatype Role = User | Assistant

  datatype Content = Prompt(text: string) | Blocks(blocks: seq<Block>) | Results(results: seq<ToolResult>)

  datatype Message = Message(role: Role, content: Content)

  /** A model reply: its stop reason and content blocks. */
  datatype Reply = Reply(stopReason: string, content: seq<Block>)

  type Model = (seq<Tools.ToolSpec>, seq<Message>) -> Result<Reply, Exc>

  type Invoker = (string, Value) -> Result<Value, Exc>

  const ToolUseStop := "tool_use"
  const EndTurnStop := "end_turn"
  const Sentinel := "Max turns reached without completing the task."

  /**
   * `_execute_tool`: the call's result, or for any exception a dictionary
   * of its type name and text; it never raises.
   */
  function ExecuteTool(invoke: Invoker, name: string, input: Value): (v: Value)
    ensures invoke(name, input).Success? ==> v == invoke(name, input).value
    ensures invoke(name, input).Failure? ==>
              v.Dict? && v.fields.Keys == {"error", "message"}
              && v.fields["error"] == Str(ExcTypeName(invoke(name, input).error))
              && v.fields["message"] == Str(ExcText(invoke(name, input).error))
  {
    match invoke(name, input)
    case Success(result) => result
    case Failure(e) => Dict(map["error" := Str(ExcTypeName(e)), "message" := Str(ExcText(e))])
  }

  function CallOf(b: Block): ToolCall
    requires b.ToolUseBlock?
  {
    ToolCall(b.id, b.name, b.input)
  }

  /** The tool_use blocks of a reply, in block order. */
  function ToolUses(blocks: seq<Block>): (r: seq<ToolCall>)
    ensures |r| <= |blocks|
  {
    if blocks == [] then []
    else
      var last := blocks[|blocks| - 1];
      ToolUses(blocks[..|blocks| - 1]) + (if last.ToolUseBlock? then [CallOf(last)] else [])
  }

  /** Exactly the tool_use blocks are collected. */
  lemma {:induction false} ToolUsesMembers(blocks: seq<Block>)
    ensures forall c | c in ToolUses(blocks) :: ToolUseBlock(c.id, c.name, c.input) in blocks
    ensures forall b | b in blocks && b.ToolUseBlock? :: CallOf(b) in ToolUses(blocks)
  {
    if blocks != [] {
      var init, last := blocks[..|blocks| - 1], blocks[|blocks| - 1];
      ToolUsesMembers(init);
      assert forall b | b in init :: b in blocks;
      assert forall b | b in blocks :: b in init || b == last;
    }
  }

  /** Collecting the tool_use blocks commutes with concatenation, so their order is the blocks' order. */
  lemma {:induction false} ToolUsesConcat(a: seq<Block>, b: seq<Block>)
    ensures ToolUses(a + b) == ToolUses(a) + ToolUses(b)
    decreases |b|
  {
    if b == [] {
      assert a + b == a;
    } else {
      var init := b[..|b| - 1];
      assert (a + b)[..|a + b| - 1] == a + init;
      ToolUsesConcat(a, init);
    }
  }

  function ResultFor(invoke: Invoker, c: ToolCall): ToolResult {
    ToolResult(c.id, ExecuteTool(invoke, c.name, c.input))
  }

  /** One tool_result per tool_use block, in block order, tagged with the block's id. */
  function ToolResultsFor(invoke: Invoker, blocks: seq<Block>): (r: seq<ToolResult>)
    ensures |r| == |ToolUses(blocks)|
  {
    if blocks == [] then []
    else
      var init, last := blocks[..|blocks| - 1], blocks[|blocks| - 1];
      ToolResultsFor(invoke, init) + (if last.ToolUseBlock? then [ResultFor(invoke, CallOf(last))] else [])
  }

  /** The k-th tool_result answers the k-th tool_use block. */
  lemma {:induction false} ToolResultsForPointwise(invoke: Invoker, blocks: seq<Block>)
    ensures forall k | 0 <= k < |ToolResultsFor(invoke, blocks)| ::
              ToolResultsFor(invoke, blocks)[k] == ResultFor(invoke, ToolUses(blocks)[k])
  {
    if blocks != [] {
      ToolResultsForPointwise(invoke, blocks[..|blocks| - 1]);
    }
  }

  /** The texts of the blocks that have one, in order. */
  function Texts(blocks: seq<Block>): (r: seq<string>)
    ensures |r| <= |blocks|
  {
    if blocks == [] then []
    else
      var last := blocks[|blocks| - 1];
      Texts(blocks[..|blocks| - 1]) + (if last.TextBlock? then [last.text] else [])
  }

  /** Exactly the texts of the text blocks are collected. */
  lemma {:induction false} TextsMembers(blocks: seq<Block>)
    ensures forall t | t in Texts(blocks) :: TextBlock(t) in blocks
    ensures forall b | b in blocks && b.TextBlock? :: b.text in Texts(blocks)
  {
    if blocks != [] {
      var init, last := blocks[..|blocks| - 1], blocks[|blocks| - 1];
      TextsMembers(init);
      assert forall b | b in init :: b in blocks;
      assert forall b | b in blocks :: b in init || b == last;
    }
  }

  /** Collecting texts distributes over concatenation: block order is kept. */
  lemma {:induction false} TextsConcat(a: seq<Block>, b: seq<Block>)
    ensures Texts(a + b) == Texts(a) + Texts(b)
    decreases |b|
  {
    if b == [] {
      assert a + b == a;
    } else {
      var init := b[..|b| - 1];
      assert (a + b)[..|a + b| - 1] == a + init;
      TextsConcat(a, init);
    }
  }

  /** The final answer of an end_turn reply: the texts joined by newlines, "" when there are none. */
  function FinalText(blocks: seq<Block>): (s: string)
    ensures Texts(blocks) == [] ==> s == ""
    ensures |Texts(blocks)| == 1 ==> s == Texts(blocks)[0]
  {
    Join(Texts(blocks), "\n")
  }

  /**
   * One more block: a text block is appended after a newline (or becomes
   * the answer when it is the first text), any other block changes nothing.
   */
  lemma FinalTextAppend(blocks: seq<Block>, b: Block)
    ensures !b.TextBlock? ==> FinalText(blocks + [b]) == FinalText(blocks)
    ensures b.TextBlock? && Texts(blocks) == [] ==> FinalText(blocks + [b]) == b.text
    ensures b.TextBlock? && Texts(blocks) != [] ==> FinalText(blocks + [b]) == FinalText(blocks) + "\n" + b.text
  {
    TextsConcat(blocks, [b]);
    assert [b][..0] == [];
    if !b.TextBlock? {
      assert Texts([b]) == [];
      assert Texts(blocks + [b]) == Texts(blocks);
      assert FinalText(blocks + [b]) == Join(Texts(blocks), "\n");
    } else if Texts(blocks) != [] {
      JoinAppend(Texts(blocks), b.text, "\n");
    }
  }

  /** Two text blocks around a tool_use block answer "Hello\nworld". */
  lemma FinalTextExample()
    ensures FinalText([TextBlock("Hello"), ToolUseBlock("t1", "GOOGLEMEET_LIST_MEETINGS", Dict(map[])), TextBlock("world")]) == "Hello\nworld"
  {
    var first := [TextBlock("Hello")];
    var tool := ToolUseBlock("t1", "GOOGLEMEET_LIST_MEETINGS", Dict(map[]));
    FinalTextAppend([], TextBlock("Hello"));
    assert [] + [TextBlock("Hello")] == first;
    FinalTextAppend(first, tool);
    FinalTextAppend(first + [tool], TextBlock("world"));
    assert first + [tool] + [TextBlock("world")] == [TextBlock("Hello"), tool, TextBlock("world")];
  }

  /** What a run of the loop produced: its result, the final transcript, and how many model calls and tool turns it made. */
  datatype LoopRun = LoopRun(result: Result<string, Exc>, transcript: seq<Message>, modelCalls: nat, toolTurns: nat)

  /** The two messages a tool_use reply adds. */
  function ToolTurn(invoke: Invoker, reply: Reply): seq<Message> {
    [Message(Assistant, Blocks(reply.content)), Message(User, Results(ToolResultsFor(invoke, reply.content)))]
  }

  /**
   * The loop from a given transcript with `turnsLeft` model calls still
   * allowed: a tool_use reply appends its two messages and goes on, an
   * end_turn reply ends with its text, any other stop reason and an
   * exhausted budget end with the sentinel, and a failing model call ends
   * the run with that exception.
   */
  function Continue(tools: seq<Tools.ToolSpec>, model: Model, invoke: Invoker, transcript: seq<Message>, turnsLeft: nat): LoopRun
    decreases turnsLeft
  {
    if turnsLeft == 0 then LoopRun(Success(Sentinel), transcript, 0, 0)
    else match model(tools, transcript)
      case Failure(e) => LoopRun(Failure(e), transcript, 1, 0)
      case Success(reply) =>
        if reply.stopReason == ToolUseStop then
          var next := transcript + ToolTurn(invoke, reply);
          var rest := Continue(tools, model, invoke, next, turnsLeft - 1);
          LoopRun(rest.result, rest.transcript, rest.modelCalls + 1, rest.toolTurns + 1)
        else if reply.stopReason == EndTurnStop then LoopRun(Success(FinalText(reply.content)), transcript, 1, 0)
        else LoopRun(Success(Sentinel), transcript, 1, 0)
  }

  /**
   * The loop makes at most `turnsLeft` model calls, and none only when no
   * turn is left; each tool turn adds two messages, and the transcript it
   * started from is kept as a prefix.
   */
  lemma {:induction false} ContinueBounds(tools: seq<Tools.ToolSpec>, model: Model, invoke: Invoker,
                                          transcript: seq<Message>, turnsLeft: nat)
    ensures var r := Continue(tools, model, invoke, transcript, turnsLeft);
            && r.modelCalls <= turnsLeft && r.toolTurns <= r.modelCalls
            && (r.modelCalls == 0 <==> turnsLeft == 0)
            && |r.transcript| == |transcript| + 2 * r.toolTurns
            && r.transcript[..|transcript|] == transcript
    decreases turnsLeft
  {
    if turnsLeft > 0 && model(tools, transcript).Success? && model(tools, transcript).value.stopReason == ToolUseStop {
      var next := transcript + ToolTurn(invoke, model(tools, transcript).value);
      ContinueBounds(tools, model, invoke, next, turnsLeft - 1);
      var rest := Continue(tools, model, invoke, next, turnsLeft - 1);
      assert rest.transcript[..|transcript|] == next[..|transcript|];
    }
  }

  /**
   * What the loop returns: when every allowed call asked for tools, the
   * budget is spent and the sentinel comes back; otherwise the run ends at
   * one more model call, on the final transcript, with that call's
   * exception, the end_turn reply's text, or the sentinel for any other
   * stop reason.
   */
  lemma {:induction false} ContinueResult(tools: seq<Tools.ToolSpec>, model: Model, invoke: Invoker,
                                          transcript: seq<Message>, turnsLeft: nat)
    ensures var r := Continue(tools, model, invoke, transcript, turnsLeft);
            r.toolTurns == turnsLeft ==> r.result == Success(Sentinel) && r.modelCalls == turnsLeft
    ensures var r := Continue(tools, model, invoke, transcript, turnsLeft);
            var last := model(tools, r.transcript);
            r.toolTurns < turnsLeft ==>
              && r.modelCalls == r.toolTurns + 1
              && (last.Failure? ==> r.result == Failure(last.error))
              && (last.Success? ==> last.value.stopReason != ToolUseStop)
              && (last.Success? && last.value.stopReason == EndTurnStop ==> r.result == Success(FinalText(last.value.content)))
              && (last.Success? && last.value.stopReason != EndTurnStop ==> r.result == Success(Sentinel))
    decreases turnsLeft
  {
    if turnsLeft > 0 && model(tools, transcript).Success? && model(tools, transcript).value.stopReason == ToolUseStop {
      var next := transcript + ToolTurn(invoke, model(tools, transcript).value);
      ContinueResult(tools, model, invoke, next, turnsLeft - 1);
    }
  }

  /** `for turn in range(max_turns)` runs no turn for a negative count. */
  function Budget(maxTurns: int): nat {
    if maxTurns < 0 then 0 else maxTurns
  }

  function InitialTranscript(prompt: string): seq<Message> {
    [Message(User, Prompt(prompt))]
  }

  /** `_run_agent_loop`. */
  function AgentLoop(tools: seq<Tools.ToolSpec>, model: Model, invoke: Invoker, prompt: string, maxTurns: int): LoopRun {
    Continue(tools, model, invoke, InitialTranscript(prompt), Budget(maxTurns))
  }

  /**
   * The k-th tool turn after `base`: the model, shown exactly the
   * transcript before it, asked for tools; its reply was appended as an
   * assistant message and the results of its calls as a user message.
   */
  predicate ToolTurnAt(tools: seq<Tools.ToolSpec>, model: Model, invoke: Invoker, msgs: seq<Message>, base: nat, k: nat) {
    var i := base + 2 * k;
    && i + 1 < |msgs|
    && model(tools, msgs[..i]).Success?
    && model(tools, msgs[..i]).value.stopReason == ToolUseStop
    && msgs[i..i + 2] == ToolTurn(invoke, model(tools, msgs[..i]).value)
  }

  /** Every pair of messages the loop appends is one tool turn. */
  lemma {:induction false} ContinueAppendsToolTurns(tools: seq<Tools.ToolSpec>, model: Model, invoke: Invoker,
                                                     transcript: seq<Message>, turnsLeft: nat)
    ensures forall k: nat | k < Continue(tools, model, invoke, transcript, turnsLeft).toolTurns ::
              ToolTurnAt(tools, model, invoke, Continue(tools, model, invoke, transcript, turnsLeft).transcript, |transcript|, k)
    decreases turnsLeft
  {
    var r := Continue(tools, model, invoke, transcript, turnsLeft);
    if turnsLeft > 0 && model(tools, transcript).Success? && model(tools, transcript).value.stopReason == ToolUseStop {
      var reply := model(tools, transcript).value;
      var next := transcript + ToolTurn(invoke, reply);
      var rest := Continue(tools, model, invoke, next, turnsLeft - 1);
      ContinueAppendsToolTurns(tools, model, invoke, next, turnsLeft - 1);
      ContinueBounds(tools, model, invoke, next, turnsLeft - 1);
      assert r.transcript == rest.transcript && r.toolTurns == rest.toolTurns + 1;
      forall k: nat | k < r.toolTurns ensures ToolTurnAt(tools, model, invoke, r.transcript, |transcript|, k) {
        if k == 0 {
          assert r.transcript[..|next|] == next;
          assert r.transcript[..|transcript|] == transcript;
          assert r.transcript[|transcript|..|transcript| + 2] == next[|transcript|..];
        } else {
          assert ToolTurnAt(tools, model, invoke, rest.transcript, |next|, k - 1);
          assert |next| + 2 * (k - 1) == |transcript| + 2 * k;
        }
      }
    }
  }

  /**
   * A model that asks for tools every time uses up the whole budget: the
   * loop makes exactly that many calls and returns the sentinel.
   */
  lemma {:induction false} AlwaysToolUseExhaustsBudget(tools: seq<Tools.ToolSpec>, model: Model, invoke: Invoker,
                                                       transcript: seq<Message>, turnsLeft: nat)
    requires forall t: seq<Message> :: model(tools, t).Success? && model(tools, t).value.stopReason == ToolUseStop
    ensures var r := Continue(tools, model, invoke, transcript, turnsLeft);
            r.result == Success(Sentinel) && r.modelCalls == turnsLeft && r.toolTurns == turnsLeft
    decreases turnsLeft
  {
    if turnsLeft > 0 {
      var next := transcript + ToolTurn(invoke, model(tools, transcript).value);
      AlwaysToolUseExhaustsBudget(tools, model, invoke, next, turnsLeft - 1);
    }
  }

  /**
   * The whole conversation: it starts from the prompt alone, makes at most
   * `max(maxTurns, 0)` model calls, stops at the first end_turn with its
   * text, and ends with the sentinel when the budget runs out.
   */
  lemma AgentLoopShape(tools: seq<Tools.ToolSpec>, model: Model, invoke: Invoker, prompt: string, maxTurns: int)
    ensures var r := AgentLoop(tools, model, invoke, prompt, maxTurns);
            && |r.transcript| == 1 + 2 * r.toolTurns
            && r.transcript[0] == Message(User, Prompt(prompt))
            && r.modelCalls <= Budget(maxTurns)
            && (maxTurns <= 0 ==> r == LoopRun(Success(Sentinel), InitialTranscript(prompt), 0, 0))
    ensures maxTurns > 0 && model(tools, InitialTranscript(prompt)).Success?
            && model(tools, InitialTranscript(prompt)).value.stopReason == EndTurnStop ==>
              AgentLoop(tools, model, invoke, prompt, maxTurns).result
              == Success(FinalText(model(tools, InitialTranscript(prompt)).value.content))
  {
    var r := AgentLoop(tools, model, invoke, prompt, maxTurns);
    ContinueBounds(tools, model, invoke, InitialTranscript(prompt), Budget(maxTurns));
    assert r.transcript[..1] == InitialTranscript(prompt);
  }

  /** `_run_agent_loop`'s result, for any budget and any number of tool turns. */
  lemma AgentLoopResult(tools: seq<Tools.ToolSpec>, model: Model, invoke: Invoker, prompt: string, maxTurns: int)
    ensures var r := AgentLoop(tools, model, invoke, prompt, maxTurns);
            r.toolTurns == Budget(maxTurns) ==> r.result == Success(Sentinel) && r.modelCalls == Budget(maxTurns)
    ensures var r := AgentLoop(tools, model, invoke, prompt, maxTurns);
            var last := model(tools, r.transcript);
            r.toolTurns < Budget(maxTurns) ==>
              && r.modelCalls == r.toolTurns + 1
              && (last.Failure? ==> r.result == Failure(last.error))
              && (last.Success? ==> last.value.stopReason != ToolUseStop)
              && (last.Success? && last.value.stopReason == EndTurnStop ==> r.result == Success(FinalText(last.value.content)))
              && (last.Success? && last.value.stopReason != EndTurnStop ==> r.result == Success(Sentinel))
  {
    ContinueResult(tools, model, invoke, InitialTranscript(prompt), Budget(maxTurns));
  }

  /** A tool_use reply hands the rest of the run to the transcript extended by its tool turn. */
  lemma ContinueToolTurn(tools: seq<Tools.ToolSpec>, model: Model, invoke: Invoker, transcript: seq<Message>, turnsLeft: nat)
    requires turnsLeft > 0 && model(tools, transcript).Success? && model(tools, transcript).value.stopReason == ToolUseStop
    ensures var rest := Continue(tools, model, invoke, transcript + ToolTurn(invoke, model(tools, transcript).value), turnsLeft - 1);
            && Continue(tools, model, invoke, transcript, turnsLeft).result == rest.result
            && Continue(tools, model, invoke, transcript, turnsLeft).transcript == rest.transcript
  {
  }

  /** The inner loop of `_run_agent_loop`: every tool_use block of a reply is executed, in order. */
  method CollectToolResults(invoke: Invoker, content: seq<Block>) returns (toolResults: seq<ToolResult>)
    ensures toolResults == ToolResultsFor(invoke, content)
  {
    toolResults := [];
    var i := 0;
    while i < |content|
      invariant 0 <= i <= |content|
      invariant toolResults == ToolResultsFor(invoke, content[..i])
    {
      assert content[..i + 1][..i] == content[..i];
      var block := content[i];
      if block.ToolUseBlock? {
        var result := ExecuteTool(invoke, block.name, block.input);
        toolResults := toolResults + [ToolResult(block.id, result)];
      }
      i := i + 1;
    }
    assert content[..i] == content;
  }

  /** `_run_agent_loop`, with its append loops; it also returns the final transcript. */
  method RunAgentLoop(tools: seq<Tools.ToolSpec>, model: Model, invoke: Invoker, prompt: string, maxTurns: int)
    returns (r: Result<string, Exc>, messages: seq<Message>)
    ensures r == AgentLoop(tools, model, invoke, prompt, maxTurns).result
    ensures messages == AgentLoop(tools, model, invoke, prompt, maxTurns).transcript
  {
    ghost var goal := AgentLoop(tools, model, invoke, prompt, maxTurns);
    messages := [Message(User, Prompt(prompt))];
    var budget := Budget(maxTurns);
    var turn := 0;
    while turn < budget
      invariant 0 <= turn <= budget
      invariant Continue(tools, model, invoke, messages, budget - turn).result == goal.result
      invariant Continue(tools, model, invoke, messages, budget - turn).transcript == goal.transcript
    {
      var response := model(tools, messages);
      if response.Failure? {
        return Failure(response.error), messages;
      }
      var reply := response.value;
      if reply.stopReason == ToolUseStop {
        ghost var before := messages;
        messages := messages + [Message(Assistant, Blocks(reply.content))];
        var toolResults := CollectToolResults(invoke, reply.content);
        messages := messages + [Message(User, Results(toolResults))];
        assert messages == before + ToolTurn(invoke, reply);
        ContinueToolTurn(tools, model, invoke, before, budget - turn);
      } else if reply.stopReason == EndTurnStop {
        return Success(FinalText(reply.content)), messages;
      } else {
        break;
      }
      turn := turn + 1;
    }
    return Success(Sentinel), messages;
  }

  // -------------------------------------------------------------- responses

  /** `AgentResponse`. */
  datatype AgentResponse = AgentResponse(success: bool, data: Option<string>, error: Option<string>, rawResponse: Option<string>)

  const ClaudeErrorPrefix := "Claude API error: "
  const UnexpectedErrorPrefix := "Unexpected error: "

  /**
   * The `try` of `query`: the loop's text as data, or the exception's text
   * as error, prefixed for an Anthropic API error and for any exception the
   * package did not define.
   */
  function ResponseFor(outcome: Result<string, Exc>): (r: AgentResponse)
    ensures r.success <==> outcome.Success?
    ensures r.success ==> r.data == Some(outcome.value) && r.error.None? && r.rawResponse == r.data
    ensures !r.success ==> r.data.None? && r.error.Some? && r.rawResponse.None?
    ensures outcome.Failure? && IsInstance(outcome.error, GoogleMeetAgentErrorClass) ==>
              r.error == Some(ExcText(outcome.error))
    ensures outcome.Failure? && outcome.error.Foreign? && outcome.error.anthropicApi ==>
              r.error == Some(ClaudeErrorPrefix + ExcText(outcome.error))
    ensures outcome.Failure? && outcome.error.Foreign? && !outcome.error.anthropicApi ==>
              r.error == Some(UnexpectedErrorPrefix + ExcText(outcome.error))
  {
    match outcome
    case Success(text) => AgentResponse(true, Some(text), None, Some(text))
    case Failure(e) =>
      if IsInstance(e, GoogleMeetAgentErrorClass) then AgentResponse(false, None, Some(ExcText(e)), None)
      else if e.anthropicApi then AgentResponse(false, None, Some(ClaudeErrorPrefix + ExcText(e)), None)
      else AgentResponse(false, None, Some(UnexpectedErrorPrefix + ExcText(e)), None)
  }

  /** A failed response always ends with the exception's own text. */
  lemma ErrorResponseEndsWithText(e: Exc)
    ensures var r := ResponseFor(Failure(e));
            |ExcText(e)| <= |r.error.value| && r.error.value[|r.error.value| - |ExcText(e)|..] == ExcText(e)
  {
    var r := ResponseFor(Failure(e));
    if e.Own? {
      Hierarchy(e.err, GoogleMeetAgentErrorClass);
    } else {
      var p := if e.anthropicApi then ClaudeErrorPrefix else UnexpectedErrorPrefix;
      assert r.error.value == p + ExcText(e);
    }
  }

  /** `max_turns or settings.agent_max_turns`. */
  function EffectiveMaxTurns(maxTurns: Option<int>, fallback: int): (n: int)
    ensures maxTurns.None? || maxTurns.value == 0 ==> n == fallback
    ensures maxTurns.Some? && maxTurns.value != 0 ==> n == maxTurns.value
  {
    if maxTurns.Some? && maxTurns.value != 0 then maxTurns.value else fallback
  }

  // ---------------------------------------------------------- tool invoker

  /** The outcome of a retried call as an exception of the package. */
  function Raised(outcome: Result<Value, AgentError>): Result<Value, Exc> {
    match outcome
    case Success(v) => Success(v)
    case Failure(e) => Failure(Own(e))
  }

  /** The invoker the agent uses: the retried `execute_google_meet_tool`, with SDK responses per call. */
  function ComposioInvoker(envs: (string, Value) -> (nat -> Tools.ExecEnv)): Invoker {
    (name: string, input: Value) => Raised(Tools.ExecuteGoogleMeetTool(name, envs(name, input)).outcome)
  }

  /** An API-class failure is reported to the model under its class name. */
  lemma ApiFailureReported(invoke: Invoker, name: string, input: Value)
    requires invoke(name, input).Failure? && IsInstance(invoke(name, input).error, GoogleMeetAPIErrorClass)
    ensures ExecuteTool(invoke, name, input).fields["error"] in {Str("GoogleMeetAPIError"), Str("RateLimitError")}
  {
    Hierarchy(invoke(name, input).error.err, GoogleMeetAPIErrorClass);
  }

  /**
   * With the real invoker, a failed tool reaches the model as a
   * GoogleMeetAPIError or a RateLimitError, never as anything else.
   */
  lemma ComposioToolFailuresAreApiErrors(envs: (string, Value) -> (nat -> Tools.ExecEnv), name: string, input: Value)
    ensures var invoke := ComposioInvoker(envs);
            invoke(name, input).Failure? ==>
              ExecuteTool(invoke, name, input).fields["error"] in {Str("GoogleMeetAPIError"), Str("RateLimitError")}
  {
    var invoke := ComposioInvoker(envs);
    var outcome := Tools.ExecuteGoogleMeetTool(name, envs(name, input)).outcome;
    assert invoke(name, input) == Raised(outcome);
    if outcome.Failure? {
      Tools.ExecuteRetriesOnlyRateLimits(name, envs(name, input));
      ApiFailureReported(invoke, name, input);
    }
  }

  // ----------------------------------------------------------------- agent

  /** What setup talks to: the OAuth oracles and the catalog responses per attempt. */
  datatype SetupEnv = SetupEnv(auth: Auth.AuthEnv, catalog: nat -> Tools.CatalogFetch)

  /** What `setup` raises, if anything: the connection step first, then the catalog. */
  function SetupError(settings: Settings, env: SetupEnv): (e: Option<AgentError>)
    ensures e.None? <==> Auth.ConnectionOutcome(Auth.GoogleMeetApp, env.auth, settings.oauthTimeout).Success?
                         && Tools.GetGoogleMeetToolsRetried(env.catalog, true).outcome.Success?
    ensures e.Some? ==> e.value.kind == AuthConfigNotFound || e.value.kind.OAuthTimeout?
                        || e.value.kind == ConnectionExpired || e.value.kind == ComposioConnection
  {
    var connection := Auth.ConnectionOutcome(Auth.GoogleMeetApp, env.auth, settings.oauthTimeout);
    var catalog := Tools.GetGoogleMeetToolsRetried(env.catalog, true).outcome;
    Auth.ConnectionFailureKinds(Auth.GoogleMeetApp, env.auth, settings.oauthTimeout);
    Tools.CatalogRetriesMeetFailures(env.catalog, true);
    if connection.Failure? then Some(connection.error)
    else if catalog.Failure? then Some(catalog.error)
    else None
  }

  /** `GoogleMeetAgent`; the two clients are modelled by whether they were created. */
  class GoogleMeetAgent {
    const settings: Settings
    const composioApiKey: string
    const anthropicApiKey: string
    const entityId: string
    var composioClient: bool
    var anthropicClient: bool
    var tools: Option<seq<Tools.ToolSpec>>
    var isSetup: bool

    /** A set-up agent has both clients and its tools. */
    predicate Valid()
      reads this
    {
      isSetup ==> composioClient && anthropicClient && tools.Some?
    }

    /** The field assignments of `__init__`; validation follows in `Create`. */
    constructor(composioApiKey: Option<string>, anthropicApiKey: Option<string>, entityId: Option<string>, settings: Settings)
      ensures this.settings == settings
      ensures this.composioApiKey == OrDefault(composioApiKey, settings.composioApiKey)
      ensures this.anthropicApiKey == OrDefault(anthropicApiKey, settings.anthropicApiKey)
      ensures this.entityId == OrDefault(entityId, settings.googleMeetUserId)
      ensures !composioClient && !anthropicClient && tools.None? && !isSetup
      ensures Valid()
    {
      this.settings := settings;
      this.composioApiKey := OrDefault(composioApiKey, settings.composioApiKey);
      this.anthropicApiKey := OrDefault(anthropicApiKey, settings.anthropicApiKey);
      this.entityId := OrDefault(entityId, settings.googleMeetUserId);
      composioClient := false;
      anthropicClient := false;
      tools := None;
      isSetup := false;
    }

    /** `GoogleMeetAgent(...)`: an agent, or the ConfigurationError `__init__` raises. */
    static method Create(composioApiKey: Option<string>, anthropicApiKey: Option<string>, entityId: Option<string>, settings: Settings)
      returns (agent: GoogleMeetAgent?, error: Option<AgentError>)
      ensures error == ValidateSettings(OrDefault(composioApiKey, settings.composioApiKey), OrDefault(anthropicApiKey, settings.anthropicApiKey))
      ensures agent == null <==> error.Some?
      ensures agent != null ==> fresh(agent) && agent.Valid() && !agent.isSetup && agent.settings == settings
                                && agent.composioApiKey != "" && agent.anthropicApiKey != ""
    {
      var a := new GoogleMeetAgent(composioApiKey, anthropicApiKey, entityId, settings);
      error := ValidateSettings(a.composioApiKey, a.anthropicApiKey);
      if error.Some? {
        return null, error;
      }
      agent := a;
    }

    /**
     * `setup`: nothing at all when already set up; otherwise the client is
     * created, the Google Meet connection ensured and the catalog loaded,
     * and only a complete run marks the agent as set up.
     */
    method Setup(env: SetupEnv) returns (error: Option<AgentError>)
      requires Valid()
      modifies this
      ensures Valid()
      ensures old(isSetup) ==> error.None? && unchanged(this)
      ensures !old(isSetup) ==>
                && error == SetupError(settings, env)
                && composioClient
                && (isSetup <==> error.None?)
                && (error.None? ==> anthropicClient && tools == Some(Tools.GetGoogleMeetToolsRetried(env.catalog, true).outcome.value))
                && (error.Some? ==> anthropicClient == old(anthropicClient) && tools == old(tools))
    {
      if isSetup {
        return None;
      }
      composioClient := true;
      var connection := Auth.EnsureGoogleMeetConnection(env.auth, settings.oauthTimeout);
      if connection.Failure? {
        return Some(connection.error);
      }
      var catalog := Tools.GetGoogleMeetToolsRetried(env.catalog, true).outcome;
      if catalog.Failure? {
        return Some(catalog.error);
      }
      tools := Some(catalog.value);
      anthropicClient := true;
      isSetup := true;
      return None;
    }

    /**
     * `query`: setup errors escape (setup runs before the `try`); after
     * setup the conversation's outcome is mapped to a response and nothing
     * escapes.
     */
    method Query(userMessage: string, maxTurns: Option<int>, env: SetupEnv, model: Model, invoke: Invoker)
      returns (r: Result<AgentResponse, AgentError>)
      requires Valid()
      modifies this
      ensures Valid()
      ensures old(isSetup) ==> unchanged(this)
      ensures r.Failure? <==> !old(isSetup) && SetupError(settings, env).Some?
      ensures r.Failure? ==> r.error == SetupError(settings, env).value
      ensures !old(isSetup) ==>
                && composioClient
                && (isSetup <==> SetupError(settings, env).None?)
                && (SetupError(settings, env).None? ==>
                      anthropicClient && tools == Some(Tools.GetGoogleMeetToolsRetried(env.catalog, true).outcome.value))
                && (SetupError(settings, env).Some? ==> anthropicClient == old(anthropicClient) && tools == old(tools))
      ensures r.Success? ==>
                isSetup
                && r.value == ResponseFor(AgentLoop(tools.value, model, invoke, userMessage,
                                                    EffectiveMaxTurns(maxTurns, settings.agentMaxTurns)).result)
    {
      if !isSetup {
        var error := Setup(env);
        if error.Some? {
          return Failure(error.value);
        }
      }
      var turns := EffectiveMaxTurns(maxTurns, settings.agentMaxTurns);
      var result, transcript := RunAgentLoop(tools.value, model, invoke, userMessage, turns);
      return Success(ResponseFor(result));
    }

    /** `list_available_tools`: setup errors escape as exceptions, then the loaded tools are listed. */
    method ListAvailableTools(env: SetupEnv) returns (r: Result<seq<Tools.ToolInfo>, Exc>)
      requires Valid()
      modifies this
      ensures Valid()
      ensures old(isSetup) ==> unchanged(this)
      ensures !old(isSetup) && SetupError(settings, env).Some? ==> r == Failure(Own(SetupError(settings, env).value))
      ensures !old(isSetup) ==>
                && composioClient
                && (isSetup <==> SetupError(settings, env).None?)
                && (SetupError(settings, env).None? ==>
                      anthropicClient && tools == Some(Tools.GetGoogleMeetToolsRetried(env.catalog, true).outcome.value))
                && (SetupError(settings, env).Some? ==> anthropicClient == old(anthropicClient) && tools == old(tools))
      ensures isSetup ==> r == Tools.ListedTools(MapSeq(Tools.ToolDict, tools.value))
    {
      if !isSetup {
        var error := Setup(env);
        if error.Some? {
          return Failure(Own(error.value));
        }
      }
      r := Tools.ListAvailableTools(MapSeq(Tools.ToolDict, tools.value));
    }
  }

  /**
   * Setup is idempotent: a second setup, whatever it would talk to, keeps
   * the first one's tools and reports nothing.
   */
  method SetupTwice(agent: GoogleMeetAgent, first: SetupEnv, second: SetupEnv) returns (e1: Option<AgentError>, e2: Option<AgentError>)
    requires agent.Valid() && !agent.isSetup
    modifies agent
    ensures e1.None? ==> e2.None? && agent.isSetup && agent.tools.Some?
                         && Tools.GetGoogleMeetToolsRetried(first.catalog, true).outcome == Success(agent.tools.value)
  {
    e1 := agent.Setup(first);
    e2 := agent.Setup(second);
  }
}
