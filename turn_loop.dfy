/** The agentic loop of one user turn: send the conversation, append the
    assistant's response, and either run every requested tool in order and
    send their results back, or pick the final answer. The LLM is a finite
    script of responses consumed one per round. */
module TurnLoop {
  import opened Results
  import opened Text
  import opened Mcp
  import opened Client
  import opened Llm
  import opened Sequences

  /** What stays the same in every request of a turn. */
  datatype RequestConfig = RequestConfig(system: Option<string>, tools: Option<seq<ToolSpec>>, toolChoice: Option<ToolChoice>)

  function RequestOf(config: RequestConfig, messages: seq<Message>): LlmRequest {
    LlmRequest(ModelName, MaxTokens, config.system, messages, config.tools, config.toolChoice)
  }

  /** How a turn ends: with an answer, with a tool call that raised (which
      propagates out of the turn), or with the scripted responses used up. */
  datatype TurnOutcome = Answered(text: string) | ToolFailed(error: ClientError) | ScriptExhausted

  /** The `tool_result` item for one tool use. */
  function ToolResultFor(use: Block, strings: seq<string>): Block
    requires use.ToolUseBlock?
  {
    ToolResultBlock(use.id, Join(strings, "\n"))
  }

  function CallRequests(uses: seq<Block>): (calls: seq<Request>)
    requires forall i | 0 <= i < |uses| :: uses[i].ToolUseBlock?
    ensures |calls| == |uses|
  {
    seq(|uses|, i requires 0 <= i < |uses| => CallTool(uses[i].name, uses[i].input))
  }

  /** The tool calls of one round and the requests they send. */
  datatype ToolRound = ToolRound(result: Result<seq<Block>, ClientError>, calls: seq<Request>)

  /** Runs the tool uses one after another; the first call that raises ends
      the round with its error. */
  function RunToolUses(endpoint: Option<Server>, uses: seq<Block>): ToolRound
    requires forall i | 0 <= i < |uses| :: uses[i].ToolUseBlock?
    decreases |uses|
  {
    if |uses| == 0 then ToolRound(Ok([]), [])
    else
      var use := uses[0];
      var sent := Sent(endpoint, CallTool(use.name, use.input));
      match CallOutcome(endpoint, use.name, use.input)
      case Err(e) => ToolRound(Err(e), sent)
      case Ok(strings) => Continued([ToolResultFor(use, strings)], sent, RunToolUses(endpoint, uses[1..]))
  }

  /** When every call returns, the round gives one `tool_result` per tool use,
      in order, whose id is the block's id and whose content is the tool's
      strings joined with newlines, and it sends one call per block, in order. */
  lemma {:induction false} RoundSucceeds(endpoint: Option<Server>, uses: seq<Block>)
    requires forall i | 0 <= i < |uses| :: uses[i].ToolUseBlock?
    requires forall i | 0 <= i < |uses| :: CallOutcome(endpoint, uses[i].name, uses[i].input).Ok?
    ensures var round := RunToolUses(endpoint, uses);
      && round.result.Ok?
      && |round.result.value| == |uses|
      && (forall i | 0 <= i < |uses| ::
            round.result.value[i] == ToolResultFor(uses[i], CallOutcome(endpoint, uses[i].name, uses[i].input).value))
      && round.calls == (if endpoint.Some? then CallRequests(uses) else [])
    decreases |uses|
  {
    if |uses| > 0 {
      assert forall i | 0 <= i < |uses| - 1 :: uses[1..][i] == uses[i + 1];
      RoundSucceeds(endpoint, uses[1..]);
      assert endpoint.Some? ==> CallRequests(uses) == [CallTool(uses[0].name, uses[0].input)] + CallRequests(uses[1..]);
    }
  }

  /** When call `k` is the first that raises, the round fails with that error
      after sending exactly the calls of blocks `0..k`. */
  lemma {:induction false} RoundFails(endpoint: Option<Server>, uses: seq<Block>, k: nat)
    requires forall i | 0 <= i < |uses| :: uses[i].ToolUseBlock?
    requires k < |uses| && CallOutcome(endpoint, uses[k].name, uses[k].input).Err?
    requires forall j | 0 <= j < k :: CallOutcome(endpoint, uses[j].name, uses[j].input).Ok?
    ensures var round := RunToolUses(endpoint, uses);
      && round.result == Err(CallOutcome(endpoint, uses[k].name, uses[k].input).error)
      && round.calls == (if endpoint.Some? then CallRequests(uses[..k + 1]) else [])
    decreases k
  {
    if k > 0 {
      assert forall i | 0 <= i < |uses| - 1 :: uses[1..][i] == uses[i + 1];
      RoundFails(endpoint, uses[1..], k - 1);
      assert uses[1..][..k] == uses[1..k + 1];
      assert endpoint.Some? ==> CallRequests(uses[..k + 1]) == [CallTool(uses[0].name, uses[0].input)] + CallRequests(uses[1..k + 1]);
    }
  }

  /** The tool loop of a round: `use_tool` for each tool-use block, in order,
      collecting one `tool_result` per block. */
  method ExecuteToolUses(client: McpClient, uses: seq<Block>) returns (r: Result<seq<Block>, ClientError>)
    requires client.Valid()
    requires forall i | 0 <= i < |uses| :: uses[i].ToolUseBlock?
    modifies client`trace
    ensures client.Valid()
    ensures r == RunToolUses(old(client.Endpoint()), uses).result
    ensures client.trace == old(client.trace) + RunToolUses(old(client.Endpoint()), uses).calls
  {
    ghost var endpoint := client.Endpoint();
    ghost var calls: seq<Request> := [];
    var toolResults: seq<Block> := [];
    assert uses[0..] == uses;
    ghost var whole := RunToolUses(endpoint, uses);
    assert whole.result.Ok? ==> [] + whole.result.value == whole.result.value;
    assert Continued([], [], whole) == whole;
    for j := 0 to |uses|
      invariant client.Valid() && client.Endpoint() == endpoint
      invariant client.trace == old(client.trace) + calls
      invariant RunToolUses(endpoint, uses) == Continued(toolResults, calls, RunToolUses(endpoint, uses[j..]))
    {
      var use := uses[j];
      assert uses[j..][0] == use && uses[j..][1..] == uses[j + 1..];
      var toolResult := client.UseTool(use.name, use.input);
      if toolResult.Err? {
        AppendAssociates(old(client.trace), calls, Sent(endpoint, CallTool(use.name, use.input)));
        calls := calls + Sent(endpoint, CallTool(use.name, use.input));
        return Err(toolResult.error);
      }
      ContinuedTwice(toolResults, calls, [ToolResultFor(use, toolResult.value)], Sent(endpoint, CallTool(use.name, use.input)), RunToolUses(endpoint, uses[j + 1..]));
      AppendAssociates(old(client.trace), calls, Sent(endpoint, CallTool(use.name, use.input)));
      toolResults := toolResults + [ToolResultFor(use, toolResult.value)];
      calls := calls + Sent(endpoint, CallTool(use.name, use.input));
    }
    assert uses[|uses|..] == [];
    assert toolResults + [] == toolResults && calls + [] == calls;
    r := Ok(toolResults);
  }

  /** A tool round already part-way done: `done` results and `calls` so far, then `rest`. */
  function Continued(done: seq<Block>, calls: seq<Request>, rest: ToolRound): ToolRound {
    ToolRound(if rest.result.Ok? then Ok(done + rest.result.value) else rest.result, calls + rest.calls)
  }

  lemma ContinuedTwice(done: seq<Block>, calls: seq<Request>, more: seq<Block>, moreCalls: seq<Request>, rest: ToolRound)
    ensures Continued(done, calls, Continued(more, moreCalls, rest)) == Continued(done + more, calls + moreCalls, rest)
  {
    if rest.result.Ok? {
      assert done + (more + rest.result.value) == (done + more) + rest.result.value;
    }
    assert calls + (moreCalls + rest.calls) == (calls + moreCalls) + rest.calls;
  }

  /** What one turn produced: how it ended, the conversation, the requests
      sent to the LLM, the requests sent over the MCP session, and the
      responses left in the script. */
  datatype TurnTrace = TurnTrace(
    outcome: TurnOutcome,
    conversation: seq<Message>,
    sent: seq<LlmRequest>,
    calls: seq<Request>,
    rest: seq<Response>)

  function AssistantMessage(response: Response): Message {
    Message(Assistant, Blocks(response.content))
  }

  function ToolRoundOf(endpoint: Option<Server>, response: Response): ToolRound {
    RunToolUses(endpoint, ToolUses(response.content))
  }

  /** A trace preceded by the requests and calls of earlier rounds. */
  function Extended(sent: seq<LlmRequest>, calls: seq<Request>, t: TurnTrace): TurnTrace {
    t.(sent := sent + t.sent, calls := calls + t.calls)
  }

  /** The rounds of a turn from `conversation` on: each round sends the
      conversation, appends the response as an assistant message, and on
      `tool_use` runs the tools and appends their results as a user message
      before the next round; any other stop reason ends the turn with the
      final answer. */
  function Rounds(endpoint: Option<Server>, config: RequestConfig, conversation: seq<Message>, script: seq<Response>): TurnTrace
    decreases |script|
  {
    if |script| == 0 then TurnTrace(ScriptExhausted, conversation, [], [], [])
    else
      var response := script[0];
      var request := RequestOf(config, conversation);
      var withResponse := conversation + [AssistantMessage(response)];
      if response.stopReason != ToolUseStop then
        TurnTrace(Answered(FinalAnswer(response.content)), withResponse, [request], [], script[1..])
      else
        var round := ToolRoundOf(endpoint, response);
        match round.result
        case Err(e) => TurnTrace(ToolFailed(e), withResponse, [request], round.calls, script[1..])
        case Ok(toolResults) =>
          Extended([request], round.calls,
            Rounds(endpoint, config, withResponse + [Message(User, Blocks(toolResults))], script[1..]))
  }

  /** The agentic loop of one turn (the inner `while True`). */
  method AgenticLoop(client: McpClient, config: RequestConfig, userContent: Content, script: seq<Response>)
    returns (outcome: TurnOutcome, conversation: seq<Message>, rest: seq<Response>, ghost sent: seq<LlmRequest>)
    requires client.Valid()
    modifies client`trace
    ensures client.Valid() && client.Endpoint() == old(client.Endpoint())
    ensures var t := Rounds(client.Endpoint(), config, [Message(User, userContent)], script);
      && outcome == t.outcome && conversation == t.conversation && rest == t.rest && sent == t.sent
      && client.trace == old(client.trace) + t.calls
  {
    ghost var endpoint := client.Endpoint();
    ghost var whole := Rounds(endpoint, config, [Message(User, userContent)], script);
    ghost var calls: seq<Request> := [];
    conversation := [Message(User, userContent)];
    sent := [];
    var i := 0;
    assert script[0..] == script;
    assert Extended([], [], whole) == whole;
    while i < |script|
      invariant 0 <= i <= |script|
      invariant client.Valid() && client.Endpoint() == endpoint
      invariant client.trace == old(client.trace) + calls
      invariant whole == Extended(sent, calls, Rounds(endpoint, config, conversation, script[i..]))
      decreases |script| - i
    {
      var response := script[i];
      ghost var request := RequestOf(config, conversation);
      RoundsStep(endpoint, config, conversation, script, i, whole, sent, calls);
      conversation := conversation + [AssistantMessage(response)];
      sent := sent + [request];
      if response.stopReason == ToolUseStop {
        var uses := ToolUses(response.content);
        var toolResults := ExecuteToolUses(client, uses);
        AppendAssociates(old(client.trace), calls, RunToolUses(endpoint, uses).calls);
        calls := calls + RunToolUses(endpoint, uses).calls;
        if toolResults.Err? {
          outcome, rest := ToolFailed(toolResults.error), script[i + 1..];
          return;
        }
        conversation := conversation + [Message(User, Blocks(toolResults.value))];
        i := i + 1;
      } else {
        outcome, rest := Answered(FinalAnswer(response.content)), script[i + 1..];
        return;
      }
    }
    RoundsEnd(endpoint, config, conversation, script, i, whole, sent, calls);
    outcome, rest := ScriptExhausted, [];
  }

  /** One round of `AgenticLoop`, in terms of the trace still to come. */
  lemma RoundsStep(endpoint: Option<Server>, config: RequestConfig, conversation: seq<Message>, script: seq<Response>,
                   i: nat, whole: TurnTrace, sent: seq<LlmRequest>, calls: seq<Request>)
    requires i < |script|
    requires whole == Extended(sent, calls, Rounds(endpoint, config, conversation, script[i..]))
    ensures var response := script[i];
      var withResponse := conversation + [AssistantMessage(response)];
      var sent' := sent + [RequestOf(config, conversation)];
      var round := ToolRoundOf(endpoint, response);
      && (response.stopReason != ToolUseStop ==>
            whole == TurnTrace(Answered(FinalAnswer(response.content)), withResponse, sent', calls, script[i + 1..]))
      && (response.stopReason == ToolUseStop && round.result.Err? ==>
            whole == TurnTrace(ToolFailed(round.result.error), withResponse, sent', calls + round.calls, script[i + 1..]))
      && (response.stopReason == ToolUseStop && round.result.Ok? ==>
            whole == Extended(sent', calls + round.calls,
              Rounds(endpoint, config, withResponse + [Message(User, Blocks(round.result.value))], script[i + 1..])))
  {
    var response := script[i];
    assert script[i..][0] == response && script[i..][1..] == script[i + 1..];
    var round := ToolRoundOf(endpoint, response);
    var withResponse := conversation + [AssistantMessage(response)];
    var request := RequestOf(config, conversation);
    if response.stopReason != ToolUseStop {
      assert calls + [] == calls;
    } else if round.result.Ok? {
      ExtendedTwice(sent, calls, [request], round.calls,
        Rounds(endpoint, config, withResponse + [Message(User, Blocks(round.result.value))], script[i + 1..]));
    }
  }

  /** The loop of `AgenticLoop` ran out of responses. */
  lemma RoundsEnd(endpoint: Option<Server>, config: RequestConfig, conversation: seq<Message>, script: seq<Response>,
                  i: nat, whole: TurnTrace, sent: seq<LlmRequest>, calls: seq<Request>)
    requires i == |script|
    requires whole == Extended(sent, calls, Rounds(endpoint, config, conversation, script[i..]))
    ensures whole == TurnTrace(ScriptExhausted, conversation, sent, calls, [])
  {
    assert script[i..] == [];
    assert sent + [] == sent && calls + [] == calls;
  }

  lemma ExtendedTwice(sent: seq<LlmRequest>, calls: seq<Request>, moreSent: seq<LlmRequest>, moreCalls: seq<Request>, t: TurnTrace)
    ensures Extended(sent, calls, Extended(moreSent, moreCalls, t)) == Extended(sent + moreSent, calls + moreCalls, t)
  {
    assert sent + (moreSent + t.sent) == (sent + moreSent) + t.sent;
    assert calls + (moreCalls + t.calls) == (calls + moreCalls) + t.calls;
  }

  /** A response after which the loop goes round again: it asked for tools
      and every call returned. */
  predicate Continues(endpoint: Option<Server>, response: Response) {
    response.stopReason == ToolUseStop && ToolRoundOf(endpoint, response).result.Ok?
  }

  /** The messages one round appends to the conversation. */
  function RoundMessages(endpoint: Option<Server>, response: Response): seq<Message> {
    [AssistantMessage(response)]
      + (if Continues(endpoint, response) then [Message(User, Blocks(ToolRoundOf(endpoint, response).result.value))] else [])
  }

  function AllRoundMessages(endpoint: Option<Server>, responses: seq<Response>): seq<Message>
    decreases |responses|
  {
    if |responses| == 0 then [] else RoundMessages(endpoint, responses[0]) + AllRoundMessages(endpoint, responses[1..])
  }

  /** The MCP requests one round sends. */
  function RoundCalls(endpoint: Option<Server>, response: Response): seq<Request> {
    if response.stopReason == ToolUseStop then ToolRoundOf(endpoint, response).calls else []
  }

  function AllRoundCalls(endpoint: Option<Server>, responses: seq<Response>): seq<Request>
    decreases |responses|
  {
    if |responses| == 0 then [] else RoundCalls(endpoint, responses[0]) + AllRoundCalls(endpoint, responses[1..])
  }

  /** A turn consumes a prefix of the script, at least one response when
      there is one. */
  lemma {:induction false} RoundsConsumes(endpoint: Option<Server>, config: RequestConfig, conversation: seq<Message>, script: seq<Response>)
    ensures var t := Rounds(endpoint, config, conversation, script);
      && |t.rest| <= |script|
      && t.rest == script[|script| - |t.rest|..]
      && (|script| > 0 ==> |t.rest| < |script|)
    decreases |script|
  {
    if |script| > 0 && Continues(endpoint, script[0]) {
      var next := conversation + [AssistantMessage(script[0])]
        + [Message(User, Blocks(ToolRoundOf(endpoint, script[0]).result.value))];
      RoundsConsumes(endpoint, config, next, script[1..]);
      var rest := Rounds(endpoint, config, next, script[1..]).rest;
      assert script[1..][|script[1..]| - |rest|..] == script[|script| - |rest|..];
    }
  }

  /** A round that continues the loop, in terms of the next round. */
  lemma RoundsContinue(endpoint: Option<Server>, config: RequestConfig, conversation: seq<Message>, script: seq<Response>)
    requires |script| > 0 && Continues(endpoint, script[0])
    ensures Rounds(endpoint, config, conversation, script)
      == Extended([RequestOf(config, conversation)], RoundCalls(endpoint, script[0]),
           Rounds(endpoint, config, conversation + RoundMessages(endpoint, script[0]), script[1..]))
  {
    var r := script[0];
    assert conversation + [AssistantMessage(r)] + [Message(User, Blocks(ToolRoundOf(endpoint, r).result.value))]
      == conversation + RoundMessages(endpoint, r);
  }

  /** A round that ends the turn. */
  lemma RoundsStop(endpoint: Option<Server>, config: RequestConfig, conversation: seq<Message>, script: seq<Response>)
    requires |script| > 0 && !Continues(endpoint, script[0])
    ensures var t := Rounds(endpoint, config, conversation, script);
      && t.rest == script[1..]
      && t.conversation == conversation + RoundMessages(endpoint, script[0])
      && t.sent == [RequestOf(config, conversation)]
      && t.calls == RoundCalls(endpoint, script[0])
  {
    assert RoundMessages(endpoint, script[0]) == [AssistantMessage(script[0])];
  }

  /** Splitting the first response off a run of rounds. */
  lemma AllRoundsFirst(endpoint: Option<Server>, script: seq<Response>, n: nat)
    requires 0 < n <= |script|
    ensures AllRoundMessages(endpoint, script[..n]) == RoundMessages(endpoint, script[0]) + AllRoundMessages(endpoint, script[1..][..n - 1])
    ensures AllRoundCalls(endpoint, script[..n]) == RoundCalls(endpoint, script[0]) + AllRoundCalls(endpoint, script[1..][..n - 1])
  {
    assert script[..n][0] == script[0] && script[..n][1..] == script[1..][..n - 1];
  }

  /** The conversation at the end of a turn is the opening conversation
      followed by each consumed round's messages. */
  lemma {:induction false} RoundsConversation(endpoint: Option<Server>, config: RequestConfig, conversation: seq<Message>, script: seq<Response>)
    ensures var t := Rounds(endpoint, config, conversation, script);
      var n := |script| - |t.rest|;
      && 0 <= n <= |script|
      && t.conversation == conversation + AllRoundMessages(endpoint, script[..n])
    decreases |script|
  {
    RoundsConsumes(endpoint, config, conversation, script);
    var t := Rounds(endpoint, config, conversation, script);
    var n := |script| - |t.rest|;
    if |script| == 0 {
      EmptyPrefix(script);
      AppendEmpty(conversation);
    } else {
      var r := script[0];
      AllRoundsFirst(endpoint, script, n);
      if Continues(endpoint, r) {
        var next := conversation + RoundMessages(endpoint, r);
        RoundsContinue(endpoint, config, conversation, script);
        RoundsConversation(endpoint, config, next, script[1..]);
        AppendAssociates(conversation, RoundMessages(endpoint, r), AllRoundMessages(endpoint, script[1..][..n - 1]));
      } else {
        RoundsStop(endpoint, config, conversation, script);
        EmptyPrefix(script[1..]);
        AppendAssociates(conversation, RoundMessages(endpoint, r), []);
      }
    }
  }

  /** The MCP requests of a turn are each consumed round's tool calls, in order. */
  lemma {:induction false} RoundsCalls(endpoint: Option<Server>, config: RequestConfig, conversation: seq<Message>, script: seq<Response>)
    ensures var t := Rounds(endpoint, config, conversation, script);
      var n := |script| - |t.rest|;
      && 0 <= n <= |script|
      && t.calls == AllRoundCalls(endpoint, script[..n])
    decreases |script|
  {
    RoundsConsumes(endpoint, config, conversation, script);
    var t := Rounds(endpoint, config, conversation, script);
    var n := |script| - |t.rest|;
    if |script| == 0 {
      EmptyPrefix(script);
    } else {
      var r := script[0];
      AllRoundsFirst(endpoint, script, n);
      if Continues(endpoint, r) {
        RoundsContinue(endpoint, config, conversation, script);
        RoundsCalls(endpoint, config, conversation + RoundMessages(endpoint, r), script[1..]);
      } else {
        RoundsStop(endpoint, config, conversation, script);
        EmptyPrefix(script[1..]);
        AppendEmpty(RoundCalls(endpoint, r));
      }
    }
  }

  /** Round `k` of a turn sends the opening conversation followed by the
      messages of rounds `0..k`: every request carries the whole
      conversation so far. */
  lemma {:induction false} RoundsRequests(endpoint: Option<Server>, config: RequestConfig, conversation: seq<Message>, script: seq<Response>)
    ensures var t := Rounds(endpoint, config, conversation, script);
      var n := |script| - |t.rest|;
      && 0 <= n <= |script|
      && |t.sent| == n
      && forall k | 0 <= k < n :: t.sent[k] == RequestOf(config, conversation + AllRoundMessages(endpoint, script[..k]))
    decreases |script|
  {
    RoundsConsumes(endpoint, config, conversation, script);
    var t := Rounds(endpoint, config, conversation, script);
    var n := |script| - |t.rest|;
    if |script| > 0 {
      var r := script[0];
      EmptyPrefix(script);
      AppendEmpty(conversation);
      if Continues(endpoint, r) {
        var next := conversation + RoundMessages(endpoint, r);
        RoundsContinue(endpoint, config, conversation, script);
        RoundsRequests(endpoint, config, next, script[1..]);
        var t' := Rounds(endpoint, config, next, script[1..]);
        assert t.sent == [RequestOf(config, conversation)] + t'.sent;
        forall k | 1 <= k < n
          ensures t.sent[k] == RequestOf(config, conversation + AllRoundMessages(endpoint, script[..k]))
        {
          AllRoundsFirst(endpoint, script, k);
          assert t.sent[k] == t'.sent[k - 1];
          AppendAssociates(conversation, RoundMessages(endpoint, r), AllRoundMessages(endpoint, script[1..][..k - 1]));
        }
      } else {
        RoundsStop(endpoint, config, conversation, script);
      }
    }
  }

  /** How a turn ends: every consumed response but the last continued the
      loop; an answer is the final answer of the first response that did not
      ask for tools; a failure is the error of the first tool round that
      raised; and the script runs out only when every response continued. */
  lemma {:induction false} RoundsOutcome(endpoint: Option<Server>, config: RequestConfig, conversation: seq<Message>, script: seq<Response>)
    ensures var t := Rounds(endpoint, config, conversation, script);
      var n := |script| - |t.rest|;
      && 0 <= n <= |script|
      && (forall k | 0 <= k < n - 1 :: Continues(endpoint, script[k]))
      && (t.outcome.Answered? ==>
            n > 0 && script[n - 1].stopReason != ToolUseStop && t.outcome.text == FinalAnswer(script[n - 1].content))
      && (t.outcome.ToolFailed? ==>
            n > 0 && script[n - 1].stopReason == ToolUseStop
            && ToolRoundOf(endpoint, script[n - 1]).result == Err(t.outcome.error))
      && (t.outcome.ScriptExhausted? <==> n == |script| && forall k | 0 <= k < n :: Continues(endpoint, script[k]))
    decreases |script|
  {
    RoundsConsumes(endpoint, config, conversation, script);
    if |script| > 0 && Continues(endpoint, script[0]) {
      var next := conversation + [AssistantMessage(script[0])]
        + [Message(User, Blocks(ToolRoundOf(endpoint, script[0]).result.value))];
      RoundsOutcome(endpoint, config, next, script[1..]);
      var t' := Rounds(endpoint, config, next, script[1..]);
      var n' := |script[1..]| - |t'.rest|;
      assert forall k | 0 <= k < n' :: script[1..][k] == script[k + 1];
    }
  }

  /** A server whose only tool always returns the text "42". */
  function AnswerServer(): Server {
    Server(Ok([]), Ok([]), Ok([]), Ok([]),
      uri => Err("unknown resource"),
      (name, arguments) => Err("unknown prompt"),
      (name, arguments) => Ok(CallToolResult([TextContent("42")], false)))
  }

  /** The tool round of the example turn below. */
  lemma MultiplyRound(use: Block)
    requires use == ToolUseBlock("toolu_1", "multiply", JObject([("a", JNumber(6)), ("b", JNumber(7))]))
    ensures RunToolUses(Some(AnswerServer()), [use]) == ToolRound(Ok([ToolResultBlock("toolu_1", "42")]), [CallTool("multiply", use.input)])
  {
    assert FlattenContent([TextContent("42")]) == ["42"];
    assert CallOutcome(Some(AnswerServer()), use.name, use.input) == Ok(["42"]);
    assert Join(["42"], "\n") == "42";
    RoundSucceeds(Some(AnswerServer()), [use]);
    var round := RunToolUses(Some(AnswerServer()), [use]);
    assert round.result.value[0] == ToolResultBlock("toolu_1", "42");
    assert round.result.value == [ToolResultBlock("toolu_1", "42")];
    assert CallRequests([use])[0] == CallTool("multiply", use.input);
  }

  /** A two-round turn: the first response asks for `multiply`, its result
      goes back as one `tool_result` carrying the tool's text, and the second
      response's text is the answer; exactly one tool call is sent. */
  lemma MultiplyTurn(config: RequestConfig)
    ensures var use := ToolUseBlock("toolu_1", "multiply", JObject([("a", JNumber(6)), ("b", JNumber(7))]));
      var script := [Response(ToolUseStop, [TextBlock("Let me multiply."), use]), Response("end_turn", [TextBlock("6 * 7 = 42")])];
      var t := Rounds(Some(AnswerServer()), config, [Message(User, PlainText("What is 6 * 7?"))], script);
      && t.outcome == Answered("6 * 7 = 42")
      && t.calls == [CallTool("multiply", use.input)]
      && |t.conversation| == 4
      && t.conversation[2] == Message(User, Blocks([ToolResultBlock("toolu_1", "42")]))
      && |t.sent| == 2
      && t.rest == []
  {
    var use := ToolUseBlock("toolu_1", "multiply", JObject([("a", JNumber(6)), ("b", JNumber(7))]));
    var first := Response(ToolUseStop, [TextBlock("Let me multiply."), use]);
    var second := Response("end_turn", [TextBlock("6 * 7 = 42")]);
    var script := [first, second];
    assert ToolUses(first.content) == [use];
    MultiplyRound(use);
    assert FinalAnswer(second.content) == "6 * 7 = 42";
    assert script[1..] == [second] && script[1..][1..] == [];
  }
}
