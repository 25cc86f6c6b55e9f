/** `MCPClient`: the connection state machine over a stdio-launched server
    and the capability queries it guards. The subprocess, its stdio streams,
    the protocol session and its handshake are external; a `Transport` value
    says how each of them behaves, and the server behind the session is a
    `Mcp.Server` oracle. */
module Client {
  import opened Results
  import opened Mcp

  /** The errors the client raises itself (`RuntimeError`) and those it lets
      through from the transport and the server. */
  datatype ClientError = AlreadyConnected | NotConnected | ServerError(message: string)

  const AlreadyConnectedMessage: string := "Client is already connected"
  const NotConnectedMessage: string := "Client not connected to a server"

  /** The text of the exception each error stands for: the client's own
      `RuntimeError` messages, or the message passed through. */
  function ErrorMessage(e: ClientError): string {
    match e
    case AlreadyConnected => AlreadyConnectedMessage
    case NotConnected => NotConnectedMessage
    case ServerError(m) => m
  }

  /** `StdioServerParameters`: how the server subprocess is launched. */
  datatype StdioParameters = StdioParameters(command: string, args: seq<string>, env: Option<map<string, string>>)

  /** The launch parameters `connect` builds: the environment is passed only
      when it is given and not empty (`env_vars if env_vars else None`). */
  function ServerParameters(command: string, serverArgs: seq<string>, envVars: Option<map<string, string>>): (p: StdioParameters)
    ensures p.command == command && p.args == serverArgs
    ensures p.env.None? <==> envVars.None? || |envVars.value| == 0
    ensures p.env.Some? ==> p.env == envVars
  {
    StdioParameters(command, serverArgs, if envVars.Some? && |envVars.value| > 0 then envVars else None)
  }

  /** The read and write streams of the subprocess channel. */
  datatype Channel = Channel(read: nat, write: nat)

  /** A protocol session, with the server that answers it. */
  datatype Session = Session(id: nat, server: Server)

  /** What the exit stack holds: the stdio channel (whose release also ends
      the subprocess) and the protocol session. */
  datatype Handle = StdioHandle(channel: Channel) | SessionHandle(session: Session)

  /** The external side of `connect`: launching the subprocess and opening its
      channel, wrapping the channel in a session, and the `initialize`
      handshake. Each may raise. */
  datatype Transport = Transport(
    spawn: StdioParameters -> Result<Channel, string>,
    open: Channel -> Result<Session, string>,
    initialize: Session -> Outcome<string>)

  function Reversed<T>(s: seq<T>): (r: seq<T>)
    ensures |r| == |s|
    decreases |s|
  {
    if |s| == 0 then [] else Reversed(s[1..]) + [s[0]]
  }

  lemma {:induction false} ReversedAt<T>(s: seq<T>, k: nat)
    requires k < |s|
    ensures Reversed(s)[k] == s[|s| - 1 - k]
    decreases |s|
  {
    if k < |s| - 1 {
      ReversedAt(s[1..], k);
    }
  }

  /** The error that leaves an unwinding exit stack: the last one raised while
      releasing `unwound` in that order, if any. */
  function LastFailure(unwound: seq<Handle>, close: Handle -> Outcome<string>): Option<string>
    decreases |unwound|
  {
    if |unwound| == 0 then None
    else match close(unwound[|unwound| - 1])
      case Fail(m) => Some(m)
      case Pass => LastFailure(unwound[..|unwound| - 1], close)
  }

  /** A server's answer, with its error wrapped as a client error. */
  function Lift<T>(answer: Result<T, string>): Result<T, ClientError> {
    match answer
    case Ok(v) => Ok(v)
    case Err(m) => Err(ServerError(m))
  }

  /** The requests a guarded query sends: one when connected, none otherwise. */
  function Sent(endpoint: Option<Server>, request: Request): seq<Request> {
    if endpoint.Some? then [request] else []
  }

  // What each guarded query returns, given the server the client is connected
  // to (`None` when it is not connected).

  function ToolsOutcome(endpoint: Option<Server>): Result<seq<ToolSpec>, ClientError> {
    match endpoint
    case None => Err(NotConnected)
    case Some(server) =>
      match server.tools
      case Ok(tools) => Ok(ReshapeTools(tools))
      case Err(m) => Err(ServerError(m))
  }

  function CallOutcome(endpoint: Option<Server>, name: string, arguments: Json): Result<seq<string>, ClientError> {
    match endpoint
    case None => Err(NotConnected)
    case Some(server) =>
      match server.callTool(name, arguments)
      case Ok(result) => Ok(FlattenContent(result.content))
      case Err(m) => Err(ServerError(m))
  }

  function ResourcesOutcome(endpoint: Option<Server>): Result<seq<Resource>, ClientError> {
    if endpoint.None? then Err(NotConnected) else Lift(endpoint.value.resources)
  }

  function TemplatesOutcome(endpoint: Option<Server>): Result<seq<ResourceTemplate>, ClientError> {
    if endpoint.None? then Err(NotConnected) else Lift(endpoint.value.templates)
  }

  function ReadOutcome(endpoint: Option<Server>, uri: string): Result<seq<ResourceContents>, ClientError> {
    if endpoint.None? then Err(NotConnected) else Lift(endpoint.value.read(uri))
  }

  function PromptsOutcome(endpoint: Option<Server>): Result<seq<Prompt>, ClientError> {
    if endpoint.None? then Err(NotConnected) else Lift(endpoint.value.prompts)
  }

  function GetPromptOutcome(endpoint: Option<Server>, name: string, arguments: map<string, string>): Result<seq<PromptMessage>, ClientError> {
    if endpoint.None? then Err(NotConnected) else Lift(endpoint.value.getPrompt(name, arguments))
  }

  /** Every guarded query on a client that is not connected raises the
      `RuntimeError` "Client not connected to a server". */
  lemma NotConnectedMessages(name: string, arguments: Json, uri: string, promptArguments: map<string, string>)
    ensures ToolsOutcome(None).Err? && ErrorMessage(ToolsOutcome(None).error) == "Client not connected to a server"
    ensures CallOutcome(None, name, arguments).Err? && ErrorMessage(CallOutcome(None, name, arguments).error) == "Client not connected to a server"
    ensures ResourcesOutcome(None).Err? && ErrorMessage(ResourcesOutcome(None).error) == "Client not connected to a server"
    ensures TemplatesOutcome(None).Err? && ErrorMessage(TemplatesOutcome(None).error) == "Client not connected to a server"
    ensures ReadOutcome(None, uri).Err? && ErrorMessage(ReadOutcome(None, uri).error) == "Client not connected to a server"
    ensures PromptsOutcome(None).Err? && ErrorMessage(PromptsOutcome(None).error) == "Client not connected to a server"
    ensures GetPromptOutcome(None, name, promptArguments).Err?
    ensures ErrorMessage(GetPromptOutcome(None, name, promptArguments).error) == "Client not connected to a server"
  {
  }

  class McpClient {
    const name: string
    const command: string
    const serverArgs: seq<string>
    const envVars: Option<map<string, string>>

    /** `_session`: set once the session is on the exit stack, cleared by a clean disconnect. */
    var session: Option<Session>
    /** `read`, `write`: set once the channel is on the exit stack; disconnect leaves them. */
    var streams: Option<Channel>
    /** The `AsyncExitStack`, oldest handle first. */
    var exitStack: seq<Handle>
    /** `_connected`. */
    var connected: bool

    /** Every handle released so far, in release order. */
    ghost var released: seq<Handle>
    /** Every request sent over a session so far, in order. */
    ghost var trace: seq<Request>

    /** A connected client has a session. */
    ghost predicate Valid()
      reads this`connected, this`session
    {
      connected ==> session.Some?
    }

    /** The server the guarded queries reach: `None` when not connected. */
    ghost function Endpoint(): Option<Server>
      reads this`connected, this`session
      requires Valid()
    {
      if connected then Some(session.value.server) else None
    }

    constructor (name: string, command: string, serverArgs: seq<string>, envVars: Option<map<string, string>>)
      ensures Valid()
      ensures this.name == name && this.command == command
      ensures this.serverArgs == serverArgs && this.envVars == envVars
      ensures !connected && session == None && streams == None && exitStack == []
      ensures released == [] && trace == []
    {
      this.name := name;
      this.command := command;
      this.serverArgs := serverArgs;
      this.envVars := envVars;
      session := None;
      streams := None;
      exitStack := [];
      connected := false;
      released := [];
      trace := [];
    }

    /** `connect`: refuses a second connection; otherwise pushes the stdio
        channel, then the session, then runs the handshake, and is connected
        only once the handshake returns. A step that raises leaves what was
        pushed before it on the stack. */
    method Connect(transport: Transport) returns (r: Outcome<ClientError>)
      requires Valid()
      modifies this
      ensures Valid()
      ensures released == old(released)
      ensures old(connected) ==>
        && r == Fail(AlreadyConnected) && ErrorMessage(r.error) == "Client is already connected" && connected
        && session == old(session) && streams == old(streams)
        && exitStack == old(exitStack) && trace == old(trace)
      ensures !old(connected) ==>
        match transport.spawn(ServerParameters(command, serverArgs, envVars))
        case Err(m) =>
          && r == Fail(ServerError(m)) && !connected
          && session == old(session) && streams == old(streams)
          && exitStack == old(exitStack) && trace == old(trace)
        case Ok(channel) =>
          && streams == Some(channel)
          && match transport.open(channel)
            case Err(m) =>
              && r == Fail(ServerError(m)) && !connected
              && session == old(session)
              && exitStack == old(exitStack) + [StdioHandle(channel)] && trace == old(trace)
            case Ok(s) =>
              && session == Some(s)
              && exitStack == old(exitStack) + [StdioHandle(channel), SessionHandle(s)]
              && trace == old(trace) + [Initialize]
              && match transport.initialize(s)
                case Pass => r == Pass && connected
                case Fail(m) => r == Fail(ServerError(m)) && !connected
    {
      if connected {
        return Fail(AlreadyConnected);
      }
      var parameters := ServerParameters(command, serverArgs, envVars);
      var stdio := transport.spawn(parameters);
      if stdio.Err? {
        return Fail(ServerError(stdio.error));
      }
      exitStack := exitStack + [StdioHandle(stdio.value)];
      streams := Some(stdio.value);
      var established := transport.open(stdio.value);
      if established.Err? {
        return Fail(ServerError(established.error));
      }
      exitStack := exitStack + [SessionHandle(established.value)];
      session := Some(established.value);
      trace := trace + [Initialize];
      var handshake := transport.initialize(established.value);
      if handshake.Fail? {
        return Fail(ServerError(handshake.error));
      }
      connected := true;
      r := Pass;
    }

    /** `disconnect`: closes the exit stack, releasing every handle newest
        first (the session before the stdio channel), then clears `_connected`
        and `_session`. If a release raises, the stack is still fully unwound
        but the last error raised propagates and the two fields keep their
        values. With nothing on the stack it releases nothing and succeeds. */
    method Disconnect(close: Handle -> Outcome<string>) returns (r: Outcome<ClientError>)
      requires Valid()
      modifies this
      ensures Valid()
      ensures exitStack == []
      ensures released == old(released) + Reversed(old(exitStack))
      ensures streams == old(streams) && trace == old(trace)
      ensures match LastFailure(Reversed(old(exitStack)), close)
        case None => r == Pass && !connected && session == None
        case Some(m) => r == Fail(ServerError(m)) && connected == old(connected) && session == old(session)
      ensures old(|exitStack|) == 0 ==> r == Pass && released == old(released) && !connected
    {
      var failure: Option<string> := None;
      while |exitStack| > 0
        invariant |exitStack| <= |old(exitStack)| && exitStack == old(exitStack)[..|exitStack|]
        invariant released == old(released) + Reversed(old(exitStack)[|exitStack|..])
        invariant failure == LastFailure(Reversed(old(exitStack)[|exitStack|..]), close)
        invariant connected == old(connected) && session == old(session)
        invariant streams == old(streams) && trace == old(trace)
        decreases |exitStack|
      {
        var k := |exitStack| - 1;
        var handle := exitStack[k];
        ghost var unwound := Reversed(old(exitStack)[k + 1..]);
        assert old(exitStack)[k..][1..] == old(exitStack)[k + 1..];
        assert Reversed(old(exitStack)[k..]) == unwound + [handle];
        assert (unwound + [handle])[..|unwound|] == unwound;
        exitStack := exitStack[..k];
        released := released + [handle];
        var closed := close(handle);
        if closed.Fail? {
          failure := Some(closed.error);
        }
      }
      assert old(exitStack)[0..] == old(exitStack);
      if failure.Some? {
        return Fail(ServerError(failure.value));
      }
      connected := false;
      session := None;
      r := Pass;
    }

    /** `get_available_tools`: the server's tools reshaped for the LLM, in order. */
    method GetAvailableTools() returns (r: Result<seq<ToolSpec>, ClientError>)
      requires Valid()
      modifies this`trace
      ensures r == ToolsOutcome(Endpoint())
      ensures trace == old(trace) + Sent(Endpoint(), ListTools)
    {
      if !connected {
        return Err(NotConnected);
      }
      trace := trace + [ListTools];
      var listed := session.value.server.tools;
      if listed.Err? {
        return Err(ServerError(listed.error));
      }
      r := Ok(ReshapeTools(listed.value));
    }

    /** `use_tool`: calls the tool and flattens its content blocks to strings. */
    method UseTool(toolName: string, arguments: Json) returns (r: Result<seq<string>, ClientError>)
      requires Valid()
      modifies this`trace
      ensures r == CallOutcome(Endpoint(), toolName, arguments)
      ensures trace == old(trace) + Sent(Endpoint(), CallTool(toolName, arguments))
    {
      if !connected {
        return Err(NotConnected);
      }
      trace := trace + [CallTool(toolName, arguments)];
      var called := session.value.server.callTool(toolName, arguments);
      if called.Err? {
        return Err(ServerError(called.error));
      }
      var content := called.value.content;
      var results: seq<string> := [];
      if |content| > 0 {
        for i := 0 to |content|
          invariant results == FlattenContent(content[..i])
          invariant trace == old(trace) + [CallTool(toolName, arguments)]
        {
          assert content[..i + 1] == content[..i] + [content[i]];
          FlattenAppend(content[..i], [content[i]]);
          match content[i]
          case TextContent(text) =>
            results := results + [text];
          case ImageContent(data, _) =>
            results := results + [data];
          case AudioContent(data, _) =>
            results := results + [data];
          case EmbeddedResource(resource) =>
            match resource {
              case TextResourceContents(_, _, text) =>
                results := results + [text];
              case BlobResourceContents(_, _, blob) =>
                results := results + [blob];
            }
          case ResourceLink(_, _) =>
        }
      }
      assert content[..|content|] == content;
      r := Ok(results);
    }

    /** `get_available_resources`. */
    method GetAvailableResources() returns (r: Result<seq<Resource>, ClientError>)
      requires Valid()
      modifies this`trace
      ensures r == ResourcesOutcome(Endpoint())
      ensures trace == old(trace) + Sent(Endpoint(), ListResources)
    {
      if !connected {
        return Err(NotConnected);
      }
      trace := trace + [ListResources];
      r := Lift(session.value.server.resources);
    }

    /** `get_available_resource_templates`. */
    method GetAvailableResourceTemplates() returns (r: Result<seq<ResourceTemplate>, ClientError>)
      requires Valid()
      modifies this`trace
      ensures r == TemplatesOutcome(Endpoint())
      ensures trace == old(trace) + Sent(Endpoint(), ListResourceTemplates)
    {
      if !connected {
        return Err(NotConnected);
      }
      trace := trace + [ListResourceTemplates];
      r := Lift(session.value.server.templates);
    }

    /** `get_resource`: the contents the server returns for `uri`. */
    method GetResource(uri: string) returns (r: Result<seq<ResourceContents>, ClientError>)
      requires Valid()
      modifies this`trace
      ensures r == ReadOutcome(Endpoint(), uri)
      ensures trace == old(trace) + Sent(Endpoint(), ReadResource(uri))
    {
      if !connected {
        return Err(NotConnected);
      }
      trace := trace + [ReadResource(uri)];
      r := Lift(session.value.server.read(uri));
    }

    /** `get_available_prompts`. */
    method GetAvailablePrompts() returns (r: Result<seq<Prompt>, ClientError>)
      requires Valid()
      modifies this`trace
      ensures r == PromptsOutcome(Endpoint())
      ensures trace == old(trace) + Sent(Endpoint(), ListPrompts)
    {
      if !connected {
        return Err(NotConnected);
      }
      trace := trace + [ListPrompts];
      r := Lift(session.value.server.prompts);
    }

    /** `load_prompt`: the rendered messages; absent arguments are sent as `{}`. */
    method LoadPrompt(promptName: string, arguments: Option<map<string, string>>) returns (r: Result<seq<PromptMessage>, ClientError>)
      requires Valid()
      modifies this`trace
      ensures r == GetPromptOutcome(Endpoint(), promptName, arguments.GetOr(map[]))
      ensures trace == old(trace) + Sent(Endpoint(), GetPrompt(promptName, arguments.GetOr(map[])))
    {
      if !connected {
        return Err(NotConnected);
      }
      var sentArguments := if arguments.Some? then arguments.value else map[];
      trace := trace + [GetPrompt(promptName, sentArguments)];
      r := Lift(session.value.server.getPrompt(promptName, sentArguments));
    }

    /** The first client's `get_available_tools` stub: no guard, no request, returns `None`. */
    method GetAvailableToolsStub() returns (r: Option<seq<ToolSpec>>)
      ensures r.None?
    {
      r := None;
    }

    /** The first client's `use_tool` stub: no guard, no request, returns `None`. */
    method UseToolStub(toolName: string, toolArgs: Option<Json>) returns (r: Option<seq<string>>)
      ensures r.None?
    {
      r := None;
    }
  }

  /** A second `connect` is refused and a second `disconnect` releases
      nothing: the lifecycle as a caller sees it. */
  method ReconnectAndRepeatDisconnect(client: McpClient, transport: Transport, close: Handle -> Outcome<string>)
    requires client.Valid() && client.connected
    requires forall h :: close(h) == Pass
    modifies client
    ensures client.Valid() && !client.connected && client.exitStack == []
    ensures client.released == old(client.released) + Reversed(old(client.exitStack))
  {
    var again := client.Connect(transport);
    assert again == Fail(AlreadyConnected) && client.exitStack == old(client.exitStack);
    var first := client.Disconnect(close);
    assert first == Pass by {
      ghost var u := Reversed(old(client.exitStack));
      NoFailure(u, close);
    }
    ghost var afterFirst := client.released;
    var second := client.Disconnect(close);
    assert second == Pass && client.released == afterFirst;
  }

  lemma {:induction false} NoFailure(unwound: seq<Handle>, close: Handle -> Outcome<string>)
    requires forall h :: close(h) == Pass
    ensures LastFailure(unwound, close).None?
    decreases |unwound|
  {
    if |unwound| > 0 {
      NoFailure(unwound[..|unwound| - 1], close);
    }
  }
}
