/** The chat agents' `main`: connect to the calculator server, discover what
    it offers, then read lines and run one turn per question until a
    farewell, and disconnect on the way out. Three agents share this shape;
    they differ in what a turn adds to the request. */
module AgentSession {
  import opened Results
  import opened Text
  import opened Mcp
  import opened Client
  import opened Llm
  import opened TurnLoop
  import opened ResourceContext
  import opened PromptInstruction
  import opened Sequences

  /** The agent with tools only, the one that adds resource context, and the
      one that also takes its system instruction from a prompt. */
  datatype Stage = ToolsOnly | WithResources | WithPrompts

  const ConnectionName := "calculator_server_connection"
  const ServerCommand := "uv"

  /** The arguments that run the calculator server from the project directory. */
  function ServerArgs(projectDir: string): seq<string> {
    ["--directory", projectDir, "run", "calculator_server.py"]
  }

  function AgentParameters(projectDir: string): StdioParameters {
    ServerParameters(ServerCommand, ServerArgs(projectDir), None)
  }

  const Farewells: seq<string> := ["quit", "exit", "goodbye"]

  /** What a line typed at the prompt asks for. */
  datatype InputAction = Quit | Skip | Ask(text: string)

  /** A line is stripped; a farewell in any letter case ends the chat, an
      empty line is skipped, anything else is a question. */
  function Classify(line: string): InputAction {
    var input := Strip(line);
    if Lower(input) in Farewells then Quit
    else if input == "" then Skip
    else Ask(input)
  }

  /** What each kind of line is, in terms of the line as typed: only a
      farewell quits, a blank line (spaces only) is skipped, and a question
      is the stripped line, never empty. */
  lemma ClassifyMeaning(line: string)
    ensures Classify(line).Quit? <==> Lower(Strip(line)) in Farewells
    ensures Classify(line).Skip? <==> Lower(Strip(line)) !in Farewells && AllSpace(line)
    ensures Classify(line).Ask? ==> Classify(line).text == Strip(line) && Classify(line).text != ""
  {
    StripEmptyIff(line);
  }

  /** What the agent found on the server at startup; an agent that does not
      ask for resources or prompts has none. */
  datatype Discovered = Discovered(tools: seq<ToolSpec>, resources: seq<Resource>, prompts: seq<Prompt>)

  /** Discovery: tools, then resources (from the second agent on), then
      prompts (third agent only); the first listing that raises ends it. */
  function Discover(stage: Stage, endpoint: Option<Server>): Result<Discovered, ClientError> {
    match ToolsOutcome(endpoint)
    case Err(e) => Err(e)
    case Ok(tools) =>
      if stage == ToolsOnly then Ok(Discovered(tools, [], []))
      else match ResourcesOutcome(endpoint)
        case Err(e) => Err(e)
        case Ok(resources) =>
          if stage == WithResources then Ok(Discovered(tools, resources, []))
          else match PromptsOutcome(endpoint)
            case Err(e) => Err(e)
            case Ok(prompts) => Ok(Discovered(tools, resources, prompts))
  }

  /** Discovery raises exactly when a listing its stage asks for raises; when
      it succeeds it holds the reshaped tools, the resources only from the
      second agent on, and the prompts only for the third. */
  lemma DiscoverFinds(stage: Stage, server: Server)
    ensures Discover(stage, Some(server)).Err? <==>
      server.tools.Err? || (stage != ToolsOnly && server.resources.Err?) || (stage == WithPrompts && server.prompts.Err?)
    ensures Discover(stage, Some(server)).Ok? ==>
      var found := Discover(stage, Some(server)).value;
      && found.tools == ReshapeTools(server.tools.value)
      && found.resources == (if stage == ToolsOnly then [] else server.resources.value)
      && found.prompts == (if stage == WithPrompts then server.prompts.value else [])
  {
  }

  /** The listings a successful discovery sends. */
  function DiscoveryRequests(stage: Stage): seq<Request> {
    [ListTools]
      + (if stage != ToolsOnly then [ListResources] else [])
      + (if stage == WithPrompts then [ListPrompts] else [])
  }

  function ResourceUris(resources: seq<Resource>): (uris: seq<string>)
    ensures |uris| == |resources|
    ensures forall i | 0 <= i < |resources| :: uris[i] == resources[i].uri
  {
    seq(|resources|, i requires 0 <= i < |resources| => resources[i].uri)
  }

  /** The resource context of a turn: every listed resource, when the agent
      uses resources and the server lists any. */
  function TurnContext(stage: Stage, endpoint: Option<Server>, found: Discovered): seq<Block> {
    if stage != ToolsOnly && |found.resources| > 0 then ContextBlocks(endpoint, ResourceUris(found.resources)) else []
  }

  function ContextRequests(stage: Stage, endpoint: Option<Server>, found: Discovered): seq<Request> {
    if stage != ToolsOnly && |found.resources| > 0 then ReadRequests(endpoint, ResourceUris(found.resources)) else []
  }

  /** The user's message: the bare question for the first agent; for the
      others a text block with the question followed by the context. */
  function UserContent(stage: Stage, input: string, context: seq<Block>): Content {
    if stage == ToolsOnly then PlainText(input) else Blocks([TextBlock(input)] + context)
  }

  /** The tools offered: always for the first agent, only when there are any
      for the others. */
  function OfferedTools(stage: Stage, tools: seq<ToolSpec>): Option<seq<ToolSpec>> {
    if stage == ToolsOnly || |tools| > 0 then Some(tools) else None
  }

  function TurnConfig(stage: Stage, found: Discovered, instruction: string): RequestConfig {
    var tools := OfferedTools(stage, found.tools);
    RequestConfig(
      if stage == WithPrompts then Some(instruction) else None,
      tools,
      if tools.Some? then Some(AutoChoice) else None)
  }

  /** The options of every request of a turn: the first agent always sends
      its tools and `tool_choice` auto, even an empty tool list; the others
      send neither when no tools were found. Only the third agent sends a
      system instruction. */
  lemma RequestOptions(stage: Stage, found: Discovered, instruction: string)
    ensures var config := TurnConfig(stage, found, instruction);
      && (config.tools.None? <==> stage != ToolsOnly && found.tools == [])
      && (config.tools.Some? ==> config.tools.value == found.tools)
      && (config.toolChoice.Some? <==> config.tools.Some?)
      && (config.toolChoice.Some? ==> config.toolChoice.value == AutoChoice)
      && (config.system.Some? <==> stage == WithPrompts)
      && (config.system.Some? ==> config.system.value == instruction)
  {
  }

  /** The user's message of a turn: the bare question for the first agent;
      for the others a text block with the question, then the blocks of every
      listed resource in order, or nothing more when none is listed. */
  lemma UserMessage(stage: Stage, endpoint: Option<Server>, found: Discovered, input: string)
    ensures var content := UserContent(stage, input, TurnContext(stage, endpoint, found));
      && (stage == ToolsOnly ==> content == PlainText(input))
      && (stage != ToolsOnly ==>
            && content.Blocks? && |content.blocks| > 0 && content.blocks[0] == TextBlock(input)
            && content.blocks[1..] == (if |found.resources| > 0 then ContextBlocks(endpoint, ResourceUris(found.resources)) else []))
  {
    if stage != ToolsOnly {
      var context := TurnContext(stage, endpoint, found);
      assert ([TextBlock(input)] + context)[1..] == context;
    }
  }

  function TurnInstruction(stage: Stage, endpoint: Option<Server>, found: Discovered, input: string): string {
    if stage == WithPrompts then SystemInstruction(endpoint, found.prompts, input) else DefaultInstruction
  }

  function TurnInstructionRequests(stage: Stage, endpoint: Option<Server>, found: Discovered, input: string): seq<Request> {
    if stage == WithPrompts then InstructionRequests(endpoint, found.prompts, input) else []
  }

  /** The rounds of the turn for one question. */
  function TurnRounds(stage: Stage, endpoint: Option<Server>, found: Discovered, input: string, script: seq<Response>): TurnTrace {
    var content := UserContent(stage, input, TurnContext(stage, endpoint, found));
    var config := TurnConfig(stage, found, TurnInstruction(stage, endpoint, found, input));
    Rounds(endpoint, config, [Message(User, content)], script)
  }

  /** How one turn ends, what it sends over the session (resource reads,
      then the prompt, then the tool calls) and what it leaves of the script. */
  datatype TurnResult = TurnResult(outcome: TurnOutcome, calls: seq<Request>, rest: seq<Response>)

  function TurnSpec(stage: Stage, endpoint: Option<Server>, found: Discovered, input: string, script: seq<Response>): TurnResult {
    var t := TurnRounds(stage, endpoint, found, input, script);
    TurnResult(t.outcome,
      ContextRequests(stage, endpoint, found) + TurnInstructionRequests(stage, endpoint, found, input) + t.calls,
      t.rest)
  }

  /** The user's message of a turn, reading the resource context first
      when the agent uses resources and the server lists any. */
  method BuildUserContent(client: McpClient, stage: Stage, found: Discovered, input: string) returns (content: Content)
    requires client.Valid()
    modifies client`trace
    ensures client.Valid() && client.Endpoint() == old(client.Endpoint())
    ensures content == UserContent(stage, input, TurnContext(stage, client.Endpoint(), found))
    ensures client.trace == old(client.trace) + ContextRequests(stage, client.Endpoint(), found)
  {
    if stage == ToolsOnly {
      content := PlainText(input);
      assert client.trace == old(client.trace) + [];
    } else {
      var userContent := [TextBlock(input)];
      if |found.resources| > 0 {
        var context := LoadResourceContext(client, ResourceUris(found.resources));
        userContent := userContent + context;
      } else {
        assert userContent + [] == userContent;
        assert client.trace == old(client.trace) + [];
      }
      content := Blocks(userContent);
    }
  }

  /** The system instruction of a turn: the prompt-derived one for the third
      agent, the default (which the others never send) otherwise. */
  method ChooseTurnInstruction(client: McpClient, stage: Stage, found: Discovered, input: string) returns (instruction: string)
    requires client.Valid()
    modifies client`trace
    ensures client.Valid() && client.Endpoint() == old(client.Endpoint())
    ensures instruction == TurnInstruction(stage, client.Endpoint(), found, input)
    ensures client.trace == old(client.trace) + TurnInstructionRequests(stage, client.Endpoint(), found, input)
  {
    instruction := DefaultInstruction;
    if stage == WithPrompts {
      instruction := ChooseSystemInstruction(client, found.prompts, input);
    } else {
      assert client.trace == old(client.trace) + [];
    }
  }

  /** One turn: build the user's message, choose the instruction, and run
      the agentic loop. */
  method Turn(client: McpClient, stage: Stage, found: Discovered, input: string, script: seq<Response>)
    returns (outcome: TurnOutcome, rest: seq<Response>)
    requires client.Valid()
    modifies client`trace
    ensures client.Valid() && client.Endpoint() == old(client.Endpoint())
    ensures var r := TurnSpec(stage, client.Endpoint(), found, input, script);
      outcome == r.outcome && rest == r.rest && client.trace == old(client.trace) + r.calls
  {
    ghost var endpoint := client.Endpoint();
    var content := BuildUserContent(client, stage, found, input);
    var instruction := ChooseTurnInstruction(client, stage, found, input);
    var conversation;
    ghost var sent;
    outcome, conversation, rest, sent := AgenticLoop(client, TurnConfig(stage, found, instruction), content, script);
    ghost var context := ContextRequests(stage, endpoint, found);
    ghost var prompt := TurnInstructionRequests(stage, endpoint, found, input);
    AppendAssociates(old(client.trace), context, prompt);
    AppendAssociates(old(client.trace), context + prompt, TurnRounds(stage, endpoint, found, input, script).calls);
  }

  /** How a chat ends: a farewell, the end of input (reading raises), a tool
      call that raised, or the scripted LLM responses used up. */
  datatype ChatEnd = Farewell | InputClosed | TurnFailed(error: ClientError) | LlmExhausted

  /** What one line read at the prompt leads to: the chat goes on, with the
      answers printed for it and what it left of the script; or it stops. */
  datatype LineOutcome =
    | Continue(answers: seq<string>, rest: seq<Response>)
    | Stop(end: ChatEnd)

  /** A line's outcome and what it sent over the session. */
  datatype LineResult = LineResult(outcome: LineOutcome, calls: seq<Request>)

  /** A turn as the chat loop sees it: the question and the script left
      decide how it ends, what it sends and what it leaves of the script. */
  type TurnFn = (string, seq<Response>) -> TurnResult

  /** The turns of one agent's session. */
  function SessionTurn(stage: Stage, endpoint: Option<Server>, found: Discovered): TurnFn {
    (input, script) => TurnSpec(stage, endpoint, found, input, script)
  }

  /** After a turn the chat goes on, with the answer printed, only when the
      turn answered. */
  function AfterTurn(outcome: TurnOutcome, rest: seq<Response>): LineOutcome {
    match outcome
    case Answered(text) => Continue([text], rest)
    case ToolFailed(e) => Stop(TurnFailed(e))
    case ScriptExhausted => Stop(LlmExhausted)
  }

  /** One line: a farewell stops, a blank line goes on with nothing sent, a
      question runs a turn, and the chat goes on only when the turn answered. */
  function Line(turn: TurnFn, action: InputAction, script: seq<Response>): LineResult {
    match action
    case Quit => LineResult(Stop(Farewell), [])
    case Skip => LineResult(Continue([], script), [])
    case Ask(input) =>
      var t := turn(input, script);
      LineResult(AfterTurn(t.outcome, t.rest), t.calls)
  }

  /** One pass of the chat loop's body. */
  method HandleLine(client: McpClient, stage: Stage, found: Discovered, action: InputAction, script: seq<Response>)
    returns (r: LineOutcome)
    requires client.Valid()
    modifies client`trace
    ensures client.Valid() && client.Endpoint() == old(client.Endpoint())
    ensures var l := Line(SessionTurn(stage, client.Endpoint(), found), action, script);
      r == l.outcome && client.trace == old(client.trace) + l.calls
  {
    if action.Quit? {
      return Stop(Farewell);
    } else if action.Skip? {
      return Continue([], script);
    }
    var outcome, rest := Turn(client, stage, found, action.text, script);
    r := AfterTurn(outcome, rest);
  }

  /** The answers printed, how the chat ended, and what it sent. */
  datatype ChatTrace = ChatTrace(answers: seq<string>, end: ChatEnd, calls: seq<Request>)

  function ChatExtended(answers: seq<string>, calls: seq<Request>, c: ChatTrace): ChatTrace {
    c.(answers := answers + c.answers, calls := calls + c.calls)
  }

  lemma ExtendedByNothing(c: ChatTrace)
    ensures ChatExtended([], [], c) == c
  {
    AppendEmpty(c.answers);
    AppendEmpty(c.calls);
  }

  /** The chat loop over the lines typed, with the LLM's responses drawn in
      order from one script for the whole session. */
  function Chat(turn: TurnFn, inputs: seq<string>, script: seq<Response>): ChatTrace
    decreases |inputs|
  {
    if |inputs| == 0 then ChatTrace([], InputClosed, [])
    else
      var l := Line(turn, Classify(inputs[0]), script);
      match l.outcome
      case Stop(end) => ChatTrace([], end, l.calls)
      case Continue(answers, rest) => ChatExtended(answers, l.calls, Chat(turn, inputs[1..], rest))
  }

  /** The chat loop inside the `try` of `main`. */
  method ChatLoop(client: McpClient, stage: Stage, found: Discovered, inputs: seq<string>, script: seq<Response>)
    returns (answers: seq<string>, end: ChatEnd)
    requires client.Valid()
    modifies client`trace
    ensures client.Valid() && client.Endpoint() == old(client.Endpoint())
    ensures var c := Chat(SessionTurn(stage, client.Endpoint(), found), inputs, script);
      answers == c.answers && end == c.end && client.trace == old(client.trace) + c.calls
  {
    ghost var endpoint := client.Endpoint();
    ghost var turn := SessionTurn(stage, endpoint, found);
    ghost var whole := Chat(turn, inputs, script);
    ghost var calls: seq<Request> := [];
    answers := [];
    var remaining := script;
    var i := 0;
    assert inputs[0..] == inputs;
    ExtendedByNothing(whole);
    while i < |inputs|
      invariant 0 <= i <= |inputs|
      invariant client.Valid() && client.Endpoint() == endpoint
      invariant client.trace == old(client.trace) + calls
      invariant whole == ChatExtended(answers, calls, Chat(turn, inputs[i..], remaining))
      decreases |inputs| - i
    {
      ChatStep(turn, inputs, i, remaining, whole, answers, calls);
      var action := Classify(inputs[i]);
      var r := HandleLine(client, stage, found, action, remaining);
      ghost var sent := Line(turn, action, remaining).calls;
      AppendAssociates(old(client.trace), calls, sent);
      calls := calls + sent;
      if r.Stop? {
        return answers, r.end;
      }
      answers := answers + r.answers;
      remaining := r.rest;
      i := i + 1;
    }
    ChatEnds(turn, inputs, i, remaining, whole, answers, calls);
    end := InputClosed;
  }

  /** One line of `ChatLoop`, in terms of the chat still to come. */
  lemma ChatStep(turn: TurnFn, inputs: seq<string>, i: nat,
                 remaining: seq<Response>, whole: ChatTrace, answers: seq<string>, calls: seq<Request>)
    requires i < |inputs|
    requires whole == ChatExtended(answers, calls, Chat(turn, inputs[i..], remaining))
    ensures var l := Line(turn, Classify(inputs[i]), remaining);
      && (l.outcome.Stop? ==> whole == ChatTrace(answers, l.outcome.end, calls + l.calls))
      && (l.outcome.Continue? ==>
            whole == ChatExtended(answers + l.outcome.answers, calls + l.calls, Chat(turn, inputs[i + 1..], l.outcome.rest)))
  {
    assert inputs[i..][0] == inputs[i] && inputs[i..][1..] == inputs[i + 1..];
    var l := Line(turn, Classify(inputs[i]), remaining);
    if l.outcome.Stop? {
      AppendEmpty(answers);
    } else {
      var next := Chat(turn, inputs[i + 1..], l.outcome.rest);
      AppendAssociates(answers, l.outcome.answers, next.answers);
      AppendAssociates(calls, l.calls, next.calls);
    }
  }

  /** The lines ran out: reading the next one raises. */
  lemma ChatEnds(turn: TurnFn, inputs: seq<string>, i: nat,
                 remaining: seq<Response>, whole: ChatTrace, answers: seq<string>, calls: seq<Request>)
    requires i == |inputs|
    requires whole == ChatExtended(answers, calls, Chat(turn, inputs[i..], remaining))
    ensures whole == ChatTrace(answers, InputClosed, calls)
  {
    assert inputs[i..] == [];
    AppendEmpty(answers);
    AppendEmpty(calls);
  }

  /** A blank line is skipped, whatever it holds besides spaces. */
  lemma BlankIsSkipped(line: string)
    requires AllSpace(line)
    ensures Classify(line) == Skip
  {
    StripEmptyIff(line);
  }

  /** Blank lines before the input change nothing: they are read and
      skipped without a turn. */
  lemma {:induction false} BlankLinesSkipped(turn: TurnFn, blanks: seq<string>, inputs: seq<string>, script: seq<Response>)
    requires forall k | 0 <= k < |blanks| :: AllSpace(blanks[k])
    ensures Chat(turn, blanks + inputs, script) == Chat(turn, inputs, script)
    decreases |blanks|
  {
    if |blanks| == 0 {
      assert blanks + inputs == inputs;
    } else {
      BlankIsSkipped(blanks[0]);
      ConsTail(blanks, inputs);
      ExtendedByNothing(Chat(turn, blanks[1..] + inputs, script));
      BlankLinesSkipped(turn, blanks[1..], inputs, script);
    }
  }

  /** The lines after a farewell are never read: the chat is the same as
      one whose input stops at the farewell. */
  lemma {:induction false} LinesAfterFarewellUnread(turn: TurnFn, inputs: seq<string>, k: nat, script: seq<Response>)
    requires k < |inputs| && Classify(inputs[k]).Quit?
    ensures Chat(turn, inputs, script) == Chat(turn, inputs[..k + 1], script)
    decreases k
  {
    var cut := inputs[..k + 1];
    assert cut[0] == inputs[0];
    var l := Line(turn, Classify(inputs[0]), script);
    if k > 0 && l.outcome.Continue? {
      PrefixTail(inputs, k);
      LinesAfterFarewellUnread(turn, inputs[1..], k - 1, l.outcome.rest);
    }
  }

  /** A line that lets the chat go on prints at most one answer. */
  lemma LineAnswersAtMostOne(turn: TurnFn, action: InputAction, script: seq<Response>)
    ensures Line(turn, action, script).outcome.Continue? ==> |Line(turn, action, script).outcome.answers| <= 1
  {
  }

  /** One answer per question at most: the chat never prints more answers
      than lines it was given. */
  lemma {:induction false} AnswersBounded(turn: TurnFn, inputs: seq<string>, script: seq<Response>)
    ensures |Chat(turn, inputs, script).answers| <= |inputs|
    decreases |inputs|
  {
    if |inputs| > 0 {
      var l := Line(turn, Classify(inputs[0]), script);
      if l.outcome.Continue? {
        LineAnswersAtMostOne(turn, Classify(inputs[0]), script);
        AnswersBounded(turn, inputs[1..], l.outcome.rest);
      }
    }
  }

  /** What startup produced: the channel and session pushed by `connect` and
      what discovery found. */
  datatype Started = Started(channel: Channel, session: Session, found: Discovered)

  /** Startup: connect (spawn, open the session, handshake), then discover.
      The first step that raises ends the program before the `try`. */
  function Startup(stage: Stage, transport: Transport, parameters: StdioParameters): Result<Started, ClientError> {
    match transport.spawn(parameters)
    case Err(m) => Err(ServerError(m))
    case Ok(channel) =>
      match transport.open(channel)
      case Err(m) => Err(ServerError(m))
      case Ok(session) =>
        match transport.initialize(session)
        case Fail(m) => Err(ServerError(m))
        case Pass =>
          match Discover(stage, Some(session.server))
          case Err(e) => Err(e)
          case Ok(found) => Ok(Started(channel, session, found))
  }

  /** The listings discovery sends to a connected server, up to and
      including the first one that raises. */
  function DiscoveryCalls(stage: Stage, server: Server): seq<Request> {
    [ListTools]
      + (if stage == ToolsOnly || server.tools.Err? then []
         else [ListResources] + (if stage != WithPrompts || server.resources.Err? then [] else [ListPrompts]))
  }

  /** What startup leaves in the client, whether it succeeds or raises: the
      handles on the exit stack, the connected flag and the requests sent. */
  datatype StartupEffect = StartupEffect(exitStack: seq<Handle>, connected: bool, calls: seq<Request>)

  function StartupEffectOf(stage: Stage, transport: Transport, parameters: StdioParameters): StartupEffect {
    match transport.spawn(parameters)
    case Err(_) => StartupEffect([], false, [])
    case Ok(channel) =>
      match transport.open(channel)
      case Err(_) => StartupEffect([StdioHandle(channel)], false, [])
      case Ok(session) =>
        match transport.initialize(session)
        case Fail(_) => StartupEffect([StdioHandle(channel), SessionHandle(session)], false, [Initialize])
        case Pass => StartupEffect([StdioHandle(channel), SessionHandle(session)], true, [Initialize] + DiscoveryCalls(stage, session.server))
  }

  /** A successful discovery sends every listing its stage asks for. */
  lemma DiscoveryCallsOnSuccess(stage: Stage, server: Server)
    requires Discover(stage, Some(server)).Ok?
    ensures DiscoveryCalls(stage, server) == DiscoveryRequests(stage)
  {
  }

  /** A successful startup leaves the channel and the session on the stack,
      a connected client, and `initialize` followed by the listings sent. */
  lemma StartupSucceeds(stage: Stage, transport: Transport, parameters: StdioParameters)
    requires Startup(stage, transport, parameters).Ok?
    ensures var started := Startup(stage, transport, parameters).value;
      StartupEffectOf(stage, transport, parameters)
        == StartupEffect([StdioHandle(started.channel), SessionHandle(started.session)], true,
                         [Initialize] + DiscoveryRequests(stage))
  {
    var session := transport.open(transport.spawn(parameters).value).value;
    DiscoveryCallsOnSuccess(stage, session.server);
  }

  /** Once the channel and the session are open, a startup that raises (in
      the handshake or in a listing) leaves both handles on the stack; a
      listing that raises does so on a client that stays connected. */
  lemma StartupFailureKeepsHandles(stage: Stage, transport: Transport, parameters: StdioParameters)
    requires transport.spawn(parameters).Ok?
    requires transport.open(transport.spawn(parameters).value).Ok?
    requires Startup(stage, transport, parameters).Err?
    ensures var channel := transport.spawn(parameters).value;
      var session := transport.open(channel).value;
      var effect := StartupEffectOf(stage, transport, parameters);
      && effect.exitStack == [StdioHandle(channel), SessionHandle(session)]
      && (effect.connected <==> transport.initialize(session).Pass?)
      && (effect.connected ==> Discover(stage, Some(session.server)).Err?)
  {
  }

  /** A run of an agent: startup raised, or the chat ran and the client was
      disconnected with the given outcome. */
  datatype AgentRun =
    | StartupFailed(error: ClientError)
    | Finished(answers: seq<string>, end: ChatEnd, closed: Outcome<ClientError>)

  /** The outcome of closing the two handles pushed by `connect`, session first. */
  function CloseOutcome(started: Started, close: Handle -> Outcome<string>): Outcome<ClientError> {
    match LastFailure([SessionHandle(started.session), StdioHandle(started.channel)], close)
    case None => Pass
    case Some(m) => Fail(ServerError(m))
  }

  /** Discovery on a connected client: list tools, then resources (from the
      second agent on), then prompts (third agent only), stopping at the
      first listing that raises. */
  method DiscoverCapabilities(client: McpClient, stage: Stage) returns (found: Result<Discovered, ClientError>)
    requires client.Valid() && client.connected
    modifies client`trace
    ensures found == Discover(stage, client.Endpoint())
    ensures client.trace == old(client.trace) + DiscoveryCalls(stage, client.session.value.server)
  {
    var tools := client.GetAvailableTools();
    if tools.Err? {
      return Err(tools.error);
    }
    var resources: seq<Resource> := [];
    if stage != ToolsOnly {
      var listed := client.GetAvailableResources();
      if listed.Err? {
        return Err(listed.error);
      }
      resources := listed.value;
    }
    var prompts: seq<Prompt> := [];
    if stage == WithPrompts {
      var listed := client.GetAvailablePrompts();
      if listed.Err? {
        return Err(listed.error);
      }
      prompts := listed.value;
    }
    found := Ok(Discovered(tools.value, resources, prompts));
  }

  /** The part of `main` before the `try`: connect a new client, then
      discover what the server offers. Whatever step raises, the client is
      left as `StartupEffectOf` says, with nothing released. */
  method Start(client: McpClient, stage: Stage, transport: Transport) returns (found: Result<Discovered, ClientError>)
    requires client.Valid() && !client.connected && client.exitStack == [] && client.released == [] && client.trace == []
    modifies client
    ensures client.Valid() && client.released == []
    ensures var effect := StartupEffectOf(stage, transport, ServerParameters(client.command, client.serverArgs, client.envVars));
      client.exitStack == effect.exitStack && client.connected == effect.connected && client.trace == effect.calls
    ensures match Startup(stage, transport, ServerParameters(client.command, client.serverArgs, client.envVars))
      case Err(e) => found == Err(e)
      case Ok(started) => found == Ok(started.found) && client.Endpoint() == Some(started.session.server)
  {
    var connected := client.Connect(transport);
    if connected.Fail? {
      return Err(connected.error);
    }
    found := DiscoverCapabilities(client, stage);
  }

  /** `main`: make the client, connect and discover, chat, and disconnect
      whatever way the chat ends. A failure during startup happens before
      the `try`, so nothing is released then and the client keeps the
      handles and the state startup left. */
  method RunAgent(stage: Stage, projectDir: string, transport: Transport, close: Handle -> Outcome<string>,
                  inputs: seq<string>, script: seq<Response>)
    returns (client: McpClient, run: AgentRun)
    ensures fresh(client)
    ensures client.name == ConnectionName && client.command == ServerCommand
    ensures client.serverArgs == ServerArgs(projectDir) && client.envVars == None
    ensures match Startup(stage, transport, AgentParameters(projectDir))
      case Err(e) =>
        var effect := StartupEffectOf(stage, transport, AgentParameters(projectDir));
        && run == StartupFailed(e) && client.released == []
        && client.exitStack == effect.exitStack && client.connected == effect.connected && client.trace == effect.calls
      case Ok(started) =>
        var c := Chat(SessionTurn(stage, Some(started.session.server), started.found), inputs, script);
        && run == Finished(c.answers, c.end, CloseOutcome(started, close))
        && client.exitStack == []
        && client.released == [SessionHandle(started.session), StdioHandle(started.channel)]
        && client.trace == [Initialize] + DiscoveryRequests(stage) + c.calls
  {
    client := new McpClient(ConnectionName, ServerCommand, ServerArgs(projectDir), None);
    var found := Start(client, stage, transport);
    if found.Err? {
      return client, StartupFailed(found.error);
    }
    ghost var started := Startup(stage, transport, AgentParameters(projectDir)).value;
    StartupSucceeds(stage, transport, AgentParameters(projectDir));
    var answers, end := ChatLoop(client, stage, found.value, inputs, script);
    var closed := client.Disconnect(close);
    assert Reversed([StdioHandle(started.channel), SessionHandle(started.session)]) == [SessionHandle(started.session), StdioHandle(started.channel)];
    run := Finished(answers, end, closed);
  }
}
