# MCP calculator client and agent loop, in Dafny

This project models the client side of a small Model Context Protocol (MCP)
application: the `MCPClient` class that launches a calculator server over
stdio and talks to it, and the chat agents that drive it. Each agent reads
lines from the user. For each question it runs an agentic turn: it asks the
LLM, runs every tool the LLM requests through the client, sends the results
back, and finally prints the first non-blank text of the response. Three
agent versions are covered:

- tools only (`02_supporting_tools`);
- tools plus resource context prepended to every question (`03_supporting_resources`);
- tools, resources and a system instruction rendered from the server's
  `calculate_operation` prompt (`04_supporting_prompts`).

The client versions `01` (connection lifecycle and two stubs), `02` (tools)
and `04` (tools, resources, prompts) share one class. The `02` and `01`
clients are the same code as the `04` client, restricted to fewer methods.

Modules, one per file:

- `Results` (`results.dfy`): `Option`, `Result` and `Outcome` wrappers.
- `Sequences` (`sequences.dfy`): small facts about concatenation and slicing used by the proofs.
- `Text` (`text.dfy`): the Python `str` operations the code relies on (`isspace`, `strip`, `lower`, `startswith`, `join`).
- `Mcp` (`mcp.dfy`): the protocol datatypes, the server as an oracle, tool reshaping and the flattening of tool results.
- `Client` (`client.dfy`): the `McpClient` class, with its connection state machine, exit stack and guarded queries.
- `Llm` (`llm.dfy`): the LLM message contract and the choice of the final answer.
- `ResourceContext` (`resource_context.dfy`): `load_resource_context`.
- `PromptInstruction` (`prompt_instruction.dfy`): `load_prompt_as_system` and the prompt selection.
- `TurnLoop` (`turn_loop.dfy`): the agentic loop of one turn.
- `AgentSession` (`agent_session.dfy`): `main`, covering startup, the chat loop over input lines, and disconnect.

External parts are parameters:

- A `Transport` value decides how spawning the subprocess, opening the session and the `initialize` handshake behave.
- A `Mcp.Server` oracle answers listings, reads, prompt renders and tool calls.
- A `close` function decides whether releasing each exit-stack handle raises.
- The LLM is a finite script of responses, consumed in order over the whole session.
- The user's input is a finite sequence of lines.

The client keeps two ghost histories:

- `trace`: every request sent over a session. It states which requests a step sends and in what order. It also states that nothing is sent when the client is not connected.
- `released`: every handle released. It states the order in which the exit stack is unwound.

Where the behaviour as written and the intended design differ, the model
follows the code:

- A tool-result content kind with no case in the dispatch (`resource_link`) is dropped silently. It is not an error.
- Releasing a handle can raise. The exception then propagates out of `disconnect`, and `_connected` and `_session` keep their values.
- A failure during startup (connect or discovery) happens before the `try`. So `disconnect` does not run then, and the handles already pushed stay on the stack.

## Model

| member | source | states |
|---|---|---|
| Client.ServerParameters | 04_supporting_prompts/client.py:78-82 | the launch parameters carry the client's command and arguments; `env` is absent exactly when `env_vars` is absent or empty, and otherwise is `env_vars` unchanged (the same code is at 02_supporting_tools/client.py lines 71-75 and 01_create_client_module/client.py lines 66-71) |
| Client.McpClient.constructor | 04_supporting_prompts/client.py:54-60 | a new client stores its name, command, arguments and environment, is not connected, has no session, an empty exit stack and no history |
| Client.McpClient.Connect | 04_supporting_prompts/client.py:74-97 | when connected: fails with the message "Client is already connected" and changes nothing. Otherwise it pushes the stdio channel (spawn failure: nothing pushed), then the session (open failure: only the channel pushed), sends `initialize`, and becomes connected only if the handshake returns; a failed handshake leaves both handles on the stack and the client disconnected (the same code is at 02_supporting_tools/client.py lines 67-90 and 01_create_client_module/client.py lines 63-86) |
| Client.NotConnectedMessages | 04_supporting_prompts/client.py:114-115 | every guarded query on a client that is not connected raises, with the message "Client not connected to a server" (the same guard is at lines 154-155, 198-199, 220-221, 244-245 and 269-270 and in the `prompts/get` guard at 297-298) |
| Client.McpClient.Disconnect | 04_supporting_prompts/client.py:320-323 | releases every handle newest first and empties the stack; when no release raises it clears `_connected` and `_session`, otherwise the last error raised propagates and both fields keep their values; with an empty stack it releases nothing and succeeds; it sends no request (the same code is at 02_supporting_tools/client.py lines 187-190 and 01_create_client_module/client.py lines 119-122) |
| Client.ReconnectAndRepeatDisconnect | 04_supporting_prompts/client.py:312-323 | on a connected client, a second connect is refused without touching the stack; a disconnect whose releases succeed releases every handle on the stack, newest first, and leaves the client disconnected; a repeated disconnect releases nothing more and succeeds |
| Client.McpClient.GetAvailableTools | 04_supporting_prompts/client.py:114-133 | not connected: fails with "not connected" and sends nothing; otherwise sends one `tools/list` and returns the server's tools reshaped in order, or the server's error (the same code is at 02_supporting_tools/client.py lines 107-126) |
| Client.McpClient.UseTool | 04_supporting_prompts/client.py:154-184 | not connected: fails and sends nothing; otherwise sends exactly one `tools/call` with the given name and arguments and returns the flattened strings of the result's content, or the server's error (the same code is at 02_supporting_tools/client.py lines 147-177) |
| Client.McpClient.GetAvailableResources | 04_supporting_prompts/client.py:198-206 | not connected: fails and sends nothing; otherwise one `resources/list` and the server's listing, empty included |
| Client.McpClient.GetAvailableResourceTemplates | 04_supporting_prompts/client.py:220-228 | not connected: fails and sends nothing; otherwise one `resources/templates/list` and the server's listing |
| Client.McpClient.GetResource | 04_supporting_prompts/client.py:244-255 | not connected: fails and sends nothing; otherwise one `resources/read` of the URI and the contents returned |
| Client.McpClient.GetAvailablePrompts | 04_supporting_prompts/client.py:269-277 | not connected: fails and sends nothing; otherwise one `prompts/list` and the server's listing |
| Client.McpClient.LoadPrompt | 04_supporting_prompts/client.py:297-310 | not connected: fails and sends nothing; otherwise one `prompts/get` whose arguments are the given ones, or `{}` when absent, and the rendered messages |
| Client.McpClient.GetAvailableToolsStub | 01_create_client_module/client.py:88-97 | the stub returns `None` |
| Client.McpClient.UseToolStub | 01_create_client_module/client.py:99-109 | the stub returns `None` |
| Client.NoFailure | 04_supporting_prompts/client.py:320-321 | when no release raises, unwinding any stack reports no error |
| Mcp.ReshapeTools | 04_supporting_prompts/client.py:124-131 | one spec per server tool, same length and order, each holding exactly the tool's name, description and input schema |
| Mcp.ReshapeKeepsNames | 04_supporting_prompts/client.py:124-131 | the names offered to the LLM are the server's tool names in server order |
| Mcp.ReshapeAppend | 02_supporting_tools/client.py:117-124 | reshaping distributes over concatenation of tool lists |
| Mcp.BlockString | 04_supporting_prompts/client.py:168-180 | a content block contributes a string exactly when it is not a resource link |
| Mcp.FlattenContent | 04_supporting_prompts/client.py:165-184 | the definition of the flattening: each block's string in block order, resource links contributing nothing; its properties are the contracts of FlattenAppend, FlattenLength and FlattenWithoutLinks |
| Mcp.FlattenAppend | 04_supporting_prompts/client.py:166-180 | flattening distributes over concatenation: each block's string lands in block order |
| Mcp.FlattenLength | 04_supporting_prompts/client.py:165-184 | the result has one string per non-link block, so never more strings than blocks (empty content gives `[]`), and exactly as many only when no block is a resource link (the same code is at 02_supporting_tools/client.py lines 158-177) |
| Mcp.FlattenWithoutLinks | 04_supporting_prompts/client.py:168-180 | without links, string i is block i's text, data, resource text or resource blob |
| Text.TrimStart | 04_supporting_prompts/agent.py:157 | the result is a suffix of the input, starts with a non-space (or is empty), and only whitespace was dropped |
| Text.TrimEnd | 04_supporting_prompts/agent.py:157 | the result is a prefix of the input, ends with a non-space (or is empty), and only whitespace was dropped |
| Text.StripEmptyIff | 04_supporting_prompts/agent.py:165-166 | a stripped line is empty exactly when every character of the line is whitespace |
| Text.TrimStartOfBlank | 04_supporting_prompts/agent.py:157 | stripping an all-whitespace line gives the empty string |
| Text.LowerChar | 04_supporting_prompts/agent.py:160 | upper-case ASCII letters map to their lower-case letter, every other character to itself |
| Text.Lower | 04_supporting_prompts/agent.py:160 | lower-casing keeps the length and maps each character independently |
| Text.JoinEmptyIff | 04_supporting_prompts/agent.py:103 | a join with a non-empty separator is empty exactly for no parts or one empty part |
| Text.JoinSnoc | 04_supporting_prompts/agent.py:240 | one more part appends the separator and that part |
| Text.JoinLength | 04_supporting_prompts/agent.py:240 | a join's length is the parts' lengths plus one separator between neighbours |
| Llm.FinalAnswerIsFirstVisible | 04_supporting_prompts/agent.py:254-261 | the final answer is the unstripped text of the first block whose stripped text is not empty (the same code is at 03_supporting_resources/agent.py lines 189-198 and 02_supporting_tools/agent.py lines 127-136) |
| Llm.FinalAnswerWithoutText | 04_supporting_prompts/agent.py:260-263 | with no such block the answer is "[No text response available]" |
| Llm.VisibleIffNotBlank | 04_supporting_prompts/agent.py:257 | a text block counts as an answer exactly when it has a non-whitespace character |
| Llm.ToolUses | 04_supporting_prompts/agent.py:221-223 | only tool-use blocks are extracted, never more than the response has |
| Llm.ToolUsesAppend | 04_supporting_prompts/agent.py:221-223 | extraction distributes over concatenation, so every tool-use block is kept in order |
| TurnLoop.RunToolUses | 04_supporting_prompts/agent.py:226-242 | the definition of one tool round, the calls made one after another; its properties are the contracts of RoundSucceeds and RoundFails |
| TurnLoop.RoundSucceeds | 04_supporting_prompts/agent.py:226-247 | when every call returns: one `tool_result` per tool-use block, in block order, with the block's id and the tool's strings joined by "\n", and one `tools/call` per block sent in order (the same code is at 02_supporting_tools/agent.py lines 100-120 and 03_supporting_resources/agent.py lines 165-182) |
| TurnLoop.RoundFails | 04_supporting_prompts/agent.py:227-233 | when call k is the first to raise, the round raises that error after sending exactly the calls of blocks 0..k |
| TurnLoop.ExecuteToolUses | 04_supporting_prompts/agent.py:226-242 | the tool loop returns the round's results or its first error, and sends the round's calls, one after another |
| TurnLoop.Rounds | 04_supporting_prompts/agent.py:202-266 | the definition of a turn round by round; AgenticLoop is proved against it and RoundsConsumes, RoundsConversation, RoundsCalls, RoundsRequests and RoundsOutcome state its properties |
| TurnLoop.AgenticLoop | 04_supporting_prompts/agent.py:199-266 | the loop's outcome, conversation, requests, session calls and remaining responses are those of the round-by-round definition `Rounds` (the same code is at 03_supporting_resources/agent.py lines 139-201 and 02_supporting_tools/agent.py lines 73-139) |
| TurnLoop.RoundsConsumes | 04_supporting_prompts/agent.py:202-266 | a turn consumes a prefix of the responses, at least one when there is one |
| TurnLoop.RoundsContinue | 04_supporting_prompts/agent.py:219-250 | a tool round whose calls all return sends one request, appends the assistant message and the tool results, and goes round again |
| TurnLoop.RoundsStop | 04_supporting_prompts/agent.py:252-266 | a round that does not continue ends the turn after one request and one assistant message |
| TurnLoop.RoundsConversation | 04_supporting_prompts/agent.py:213-247 | the final conversation is the opening message followed, round by round, by one assistant message and, for a continuing round, one user message of tool results (the same code is at 02_supporting_tools/agent.py lines 87-120) |
| TurnLoop.RoundsCalls | 04_supporting_prompts/agent.py:227-233 | the turn's session calls are each consumed round's tool calls, in order |
| TurnLoop.RoundsRequests | 04_supporting_prompts/agent.py:202-211 | request k carries the whole conversation so far (opening message plus rounds 0..k-1) with the turn's fixed model, limit, system, tools and tool choice |
| TurnLoop.RoundsOutcome | 04_supporting_prompts/agent.py:219-266 | every response but the last continued; an answer is the final answer of the first non-tool-use response; a failure is the error of the first tool round that raised; the script runs out exactly when every response continued |
| TurnLoop.MultiplyRound | 02_supporting_tools/agent.py:101-116 | a `multiply` tool use against a server answering "42" gives one `tool_result` "42" with the block's id and one call |
| TurnLoop.MultiplyTurn | 02_supporting_tools/agent.py:77-139 | a tool-use response then an end-turn response give the second text as answer, four messages, two requests and one tool call |
| ResourceContext.IsImage | 04_supporting_prompts/agent.py:52 | the image test: a MIME type that is present (an empty one is falsy) and starts with `image/` |
| ResourceContext.ContentsBlock | 04_supporting_prompts/agent.py:43-65 | the definition of the block of one piece of contents; its rule is the contract of ContentsBlockRule |
| ResourceContext.ContentsBlockRule | 04_supporting_prompts/agent.py:44-65 | text contents become `[Resource: uri]\n` followed by the text whatever their MIME type (the text test comes first); binary contents become an image block with the MIME type and the blob exactly when the MIME type is present and starts with `image/`, and are skipped otherwise (the same code is at 03_supporting_resources/agent.py lines 42-59) |
| ResourceContext.ReadRequests | 04_supporting_prompts/agent.py:37-40 | one read per URI when connected, none otherwise |
| ResourceContext.LoadResourceContext | 04_supporting_prompts/agent.py:35-70 | the blocks are each URI's blocks in URI order (a URI whose read raises gives none) and one read is sent per URI, in order; the function does not raise (the same code is at 03_supporting_resources/agent.py lines 33-64) |
| ResourceContext.ContextAppend | 04_supporting_prompts/agent.py:37-68 | the context of two URI lists is the first's blocks followed by the second's |
| ResourceContext.FailingUriContributesNothing | 04_supporting_prompts/agent.py:67-68 | a URI whose read raises leaves the context blocks exactly as they are without that URI (that later URIs are still read is the `trace` clause of LoadResourceContext: one read per URI) (the same code is at 03_supporting_resources/agent.py lines 61-62) |
| ResourceContext.NoContextWhenEveryReadFails | 04_supporting_prompts/agent.py:37-68 | on any endpoint, when the read of every URI raises, each is skipped and the context is empty |
| ResourceContext.NoContextWhenNotConnected | 04_supporting_prompts/agent.py:37-68 | without a connection, the context is empty |
| ResourceContext.UriBlocksFromContents | 04_supporting_prompts/agent.py:43-65 | every block of a resource comes from one of its contents, and every content that yields a block contributes it |
| ResourceContext.AllTextBlocks | 04_supporting_prompts/agent.py:44-51 | text contents become one block each, in order, labelled "[Resource: uri]\n" before the text (the same code is at 03_supporting_resources/agent.py lines 42-47) |
| ResourceContext.TextBlocksAreLabelled | 04_supporting_prompts/agent.py:49 | every text block of the context starts with the label of a URI that was read |
| PromptInstruction.MessageText | 04_supporting_prompts/agent.py:98-101 | the definition of a message's text: a string content, or a content block that has `text`; any other message has none |
| PromptInstruction.PromptTexts | 04_supporting_prompts/agent.py:95-101 | the definition of the collected texts, in message order; its properties are the contracts of AllTextPrompt and TextlessPrompt |
| PromptInstruction.SystemText | 04_supporting_prompts/agent.py:89-107 | the definition of what `load_prompt_as_system` returns; LoadPromptAsSystem is proved against it and SystemTextEmptyIff states when it is empty |
| PromptInstruction.LoadPromptAsSystem | 04_supporting_prompts/agent.py:89-107 | returns the message texts joined by a blank line, or "" when loading raises; sends one `prompts/get` with the arguments (or `{}`) when connected |
| PromptInstruction.SystemTextEmptyIff | 04_supporting_prompts/agent.py:103-107 | the result is "" exactly when loading raises, or the messages hold no text or a single empty text |
| PromptInstruction.AllTextPrompt | 04_supporting_prompts/agent.py:96-101 | when every message has text, there is one text per message, in order |
| PromptInstruction.TextlessPrompt | 04_supporting_prompts/agent.py:96-101 | messages without text contribute nothing |
| PromptInstruction.ChooseSystemInstruction | 04_supporting_prompts/agent.py:184-196 | the instruction is the rendered `calculate_operation` prompt with `{"operation": input}` when the server lists it and the text is not empty, the default otherwise; at most one prompt is rendered |
| PromptInstruction.InstructionNotEmpty | 04_supporting_prompts/agent.py:184-195 | the instruction sent is never empty |
| PromptInstruction.NotConnectedKeepsDefault | 04_supporting_prompts/agent.py:184-195 | without a connection the default instruction stays |
| AgentSession.Classify | 04_supporting_prompts/agent.py:157-166 | the definition of the classification in the code's order (farewell test first, then the empty test); what each class means for the typed line is the contract of ClassifyMeaning |
| AgentSession.ClassifyMeaning | 04_supporting_prompts/agent.py:157-166 | a line quits exactly when its stripped, lower-cased form is quit, exit or goodbye; is skipped exactly when it is not a farewell and all whitespace; otherwise it is a question, the stripped line, never empty (the same code is at 02_supporting_tools/agent.py lines 59-68) |
| AgentSession.ResourceUris | 04_supporting_prompts/agent.py:175 | one URI per listed resource, in order |
| AgentSession.Discover | 04_supporting_prompts/agent.py:136-138 | the definition of discovery; its meaning is the contract of DiscoverFinds |
| AgentSession.DiscoverFinds | 04_supporting_prompts/agent.py:136-138 | discovery raises exactly when a listing its stage asks for raises; on success it holds the reshaped tools, the resources only from the resources agent on and the prompts only for the prompts agent |
| AgentSession.TurnContext | 04_supporting_prompts/agent.py:174-179 | the definition of a turn's resource context; its use is the contract of UserMessage |
| AgentSession.UserContent | 04_supporting_prompts/agent.py:169-179 | the definition of the user's message; its shape is the contract of UserMessage |
| AgentSession.UserMessage | 04_supporting_prompts/agent.py:169-179 | the tools agent sends the bare question; the others send a text block with the question followed by the blocks of every listed resource, in order, and nothing more when none is listed (the same code is at 03_supporting_resources/agent.py lines 128-139 and 02_supporting_tools/agent.py line 73) |
| AgentSession.OfferedTools | 04_supporting_prompts/agent.py:209-210 | the definition of the tools offered; the rule is the contract of RequestOptions |
| AgentSession.TurnConfig | 04_supporting_prompts/agent.py:204-210 | the definition of what every request of a turn carries besides the conversation; the rule is the contract of RequestOptions |
| AgentSession.RequestOptions | 04_supporting_prompts/agent.py:204-210 | `tools` is absent exactly when the agent is not the tools agent and no tool was found, and otherwise is the found tools; `tool_choice` is auto exactly when tools are sent; `system` is sent exactly by the prompts agent and is the chosen instruction (the same code is at 03_supporting_resources/agent.py lines 144-150 and 02_supporting_tools/agent.py lines 79-85) |
| AgentSession.BuildUserContent | 04_supporting_prompts/agent.py:169-179 | the user's message is the question as a text block followed by the context of every listed resource, read only when resources exist; the tools agent sends the bare question (the same code is at 03_supporting_resources/agent.py lines 128-136) |
| AgentSession.ChooseTurnInstruction | 04_supporting_prompts/agent.py:184-196 | the prompts agent's instruction is the prompt-derived one; the other agents render nothing |
| AgentSession.Turn | 04_supporting_prompts/agent.py:168-266 | a turn's outcome, remaining responses and session calls (resource reads, then the prompt, then tool calls) are those of `TurnSpec`, with tools and tool choice always sent by the tools agent (02_supporting_tools/agent.py lines 83-84, even for an empty list) and omitted by the resources and prompts agents when no tools were found, and the system only for the prompts agent |
| AgentSession.Line | 04_supporting_prompts/agent.py:157-266 | the definition of what one line read leads to; HandleLine is proved against it and LineAnswersAtMostOne states it prints at most one answer |
| AgentSession.Chat | 04_supporting_prompts/agent.py:155-266 | the definition of the chat line by line; ChatLoop is proved against it and BlankLinesSkipped, LinesAfterFarewellUnread and AnswersBounded state its properties |
| AgentSession.HandleLine | 04_supporting_prompts/agent.py:157-266 | a farewell stops, a blank line continues with nothing sent, a question runs a turn and the chat continues only when the turn answered |
| AgentSession.ChatLoop | 04_supporting_prompts/agent.py:154-266 | the answers printed, how the chat ends and everything sent are those of `Chat`, one line after another (the same code is at 02_supporting_tools/agent.py lines 56-139) |
| AgentSession.BlankIsSkipped | 04_supporting_prompts/agent.py:165-166 | a line of whitespace only is skipped |
| AgentSession.BlankLinesSkipped | 04_supporting_prompts/agent.py:164-166 | blank lines before the input change nothing in the chat |
| AgentSession.LinesAfterFarewellUnread | 04_supporting_prompts/agent.py:160-162 | lines after a farewell are never read: the chat equals the one cut at the farewell |
| AgentSession.LineAnswersAtMostOne | 04_supporting_prompts/agent.py:260-263 | a line that lets the chat go on prints at most one answer |
| AgentSession.AnswersBounded | 04_supporting_prompts/agent.py:155-266 | the chat never prints more answers than lines read |
| AgentSession.Startup | 04_supporting_prompts/agent.py:135-138 | the definition of startup's result: the first step that raises gives its error, otherwise the handles and what discovery found |
| AgentSession.DiscoveryCalls | 04_supporting_prompts/agent.py:136-138 | the definition of the listings sent, up to and including the first that raises |
| AgentSession.StartupEffectOf | 04_supporting_prompts/client.py:85-97 | the definition of the state startup leaves: nothing after a failed spawn, the channel after a failed open, both handles and `initialize` after a failed handshake, and a connected client with both handles after a handshake that returns |
| AgentSession.DiscoveryCallsOnSuccess | 04_supporting_prompts/agent.py:136-138 | a discovery that succeeds sends every listing its stage asks for |
| AgentSession.StartupSucceeds | 04_supporting_prompts/agent.py:135-138 | a successful startup leaves the channel and the session on the stack, a connected client, and `initialize` followed by the stage's listings sent |
| AgentSession.StartupFailureKeepsHandles | 04_supporting_prompts/client.py:85-97 | once the channel and the session are open, a startup that raises leaves both handles on the stack; the client is connected exactly when the handshake returned, in which case it was a listing that raised |
| AgentSession.DiscoverCapabilities | 04_supporting_prompts/agent.py:136-138 | on a connected client, the result is Discover's and the requests sent are DiscoveryCalls |
| AgentSession.Start | 04_supporting_prompts/agent.py:135-138 | a fresh client is connected, then lists tools, resources and prompts (only those its stage uses); the first step that raises ends startup with that error and nothing released, and in every case the exit stack, the connected flag and the requests sent are those of StartupEffectOf (so a failed handshake or listing leaves both handles on the stack); on success the client is connected to the opened session's server |
| AgentSession.RunAgent | 04_supporting_prompts/agent.py:123-270 | the client is made with the calculator server's launch parameters; a startup failure is reported without disconnecting, nothing is released and the client keeps the stack, flag and requests StartupEffectOf gives; otherwise the chat runs and disconnect always follows, releasing the session then the channel, whatever way the chat ended (the same code is at 02_supporting_tools/agent.py lines 33-143 and 03_supporting_resources/agent.py lines 80-205) |

## Left out

- Asynchrony: every `await` is modelled as a sequential call, since the code keeps one request outstanding at a time.
- Printing, logging warnings, `load_dotenv` and the `ANTHROPIC_API_KEY` check: they change no state the model tracks.
- The subprocess, its stdio streams, the MCP session object and the `initialize` handshake: they are the `Transport` oracle; the streams are opaque numbers.
- The Anthropic HTTP client: it is a finite script of responses shared by the whole session. The source's agentic loop has no round cap; running out of scripted responses (`ScriptExhausted`, `LlmExhausted`) is a modelling bound, not a behaviour of the source.
- Errors raised by the LLM call itself: the script always answers.
- The user's input stream is a finite sequence; reaching its end stands for `input()` raising.
- JSON contents (tool arguments, input schemas) are opaque values copied through; JSON numbers are integers here, not floats.
- Text.LowerChar and Text.Lower: only ASCII letters are lower-cased, whereas Python's `str.lower` is Unicode-wide. For the farewell test this is exact: the only non-ASCII character whose lower case is ASCII is the Kelvin sign (to `k`), and no farewell word contains `k`.
- An exception raised inside an exit-stack handler is not suppressed by a later handler; the model propagates the last error raised.
- The handles a failed `connect` or discovery leaves on the stack are never released, because `main` calls `disconnect` only inside the `try`. `Start`, `RunAgent` and `StartupFailureKeepsHandles` state what is left; what happens to those handles when the process exits is not modelled.
- `use_tool` with `arguments=None`: the agents always pass the tool-use block's input, so the model takes the arguments as given.
- calculator_server.py, 00_base_application/agent.py and 01_create_client_module/agent.py are not part of this model: the server is the `Mcp.Server` oracle, and the two early agents hold no client logic.
- The server is stateless: `Mcp.Server` answers every listing with one fixed snapshot and every read, prompt render and tool call as a function of its arguments alone, for the whole session. A server whose answers depend on earlier calls is not modelled. Facts that rely on this: ResourceContext.ContextAppend and ResourceContext.FailingUriContributesNothing (a URI's blocks do not depend on the reads before it), TurnLoop.RunToolUses, TurnLoop.Rounds and the lemmas about them (each tool result depends only on the tool's name and arguments), and AgentSession.Chat (every turn sees the same server).
- Queries after a failed `disconnect`: when a release raises, `_connected` and `_session` keep their values, so the guard still passes, but the session's context has been exited. The model lets `GetAvailableTools`, `UseTool`, `GetResource`, `LoadPrompt` and the other guarded queries keep answering from the same `Mcp.Server` oracle; what a closed session really does with a later request is not modelled. The agents never query after `disconnect`.
- PromptInstruction.NotConnectedKeepsDefault: stated for the disconnected client only; the connected case is `ChooseSystemInstruction`'s contract.
