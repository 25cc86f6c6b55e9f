/** The Model Context Protocol as the client sees it: the capability
    descriptors a server lists, the content blocks a tool call returns, the
    contents a resource read returns, the messages a prompt renders to, and the
    two client-side normalisers over them (tool reshaping for the LLM's tool
    contract and flattening of a tool result to strings). */
module Mcp {
  import opened Results

  /** A JSON value (tool arguments, input schemas). The model copies these
      through and never looks inside; numbers are integers here. */
  datatype Json =
    | JNull
    | JBool(b: bool)
    | JNumber(n: int)
    | JString(s: string)
    | JArray(items: seq<Json>)
    | JObject(fields: seq<(string, Json)>)

  /** One piece of a resource: text-valued or binary-valued (base64 `blob`). */
  datatype ResourceContents =
    | TextResourceContents(uri: string, mimeType: Option<string>, text: string)
    | BlobResourceContents(uri: string, mimeType: Option<string>, blob: string)

  /** The content kinds of a tool result: text, image, audio, an embedded
      resource, and a resource link (which the client's dispatch has no case for). */
  datatype ContentBlock =
    | TextContent(text: string)
    | ImageContent(data: string, mimeType: string)
    | AudioContent(data: string, mimeType: string)
    | EmbeddedResource(resource: ResourceContents)
    | ResourceLink(uri: string, name: string)

  /** `tools/call` result; `isError` marks a tool-level failure reported as content. */
  datatype CallToolResult = CallToolResult(content: seq<ContentBlock>, isError: bool)

  /** A tool as the server lists it (the fields of `mcp.types.Tool` the client can see). */
  datatype Tool = Tool(
    name: string,
    title: Option<string>,
    description: Option<string>,
    inputSchema: Json,
    outputSchema: Option<Json>)

  /** A tool as the LLM's tool-calling contract takes it: exactly
      `{name, description, input_schema}`. */
  datatype ToolSpec = ToolSpec(name: string, description: Option<string>, inputSchema: Json)

  datatype Resource = Resource(uri: string, name: string, description: Option<string>, mimeType: Option<string>)

  datatype ResourceTemplate = ResourceTemplate(uriTemplate: string, name: string, description: Option<string>, mimeType: Option<string>)

  datatype PromptArgument = PromptArgument(name: string, required: bool)

  datatype Prompt = Prompt(name: string, description: Option<string>, arguments: seq<PromptArgument>)

  datatype Role = User | Assistant

  /** A prompt message's content: a plain string or one content block. */
  datatype PromptContent = StringContent(s: string) | BlockContent(block: ContentBlock)

  datatype PromptMessage = PromptMessage(role: Role, content: PromptContent)

  /** The server behind a session, as an oracle: each listing is a snapshot or
      the error the server raised, and reads, prompt renders and tool calls
      are answered by total functions of their arguments. */
  datatype Server = Server(
    tools: Result<seq<Tool>, string>,
    resources: Result<seq<Resource>, string>,
    templates: Result<seq<ResourceTemplate>, string>,
    prompts: Result<seq<Prompt>, string>,
    read: string -> Result<seq<ResourceContents>, string>,
    getPrompt: (string, map<string, string>) -> Result<seq<PromptMessage>, string>,
    callTool: (string, Json) -> Result<CallToolResult, string>)

  /** A request the client sends over its session. */
  datatype Request =
    | Initialize
    | ListTools
    | CallTool(name: string, arguments: Json)
    | ListResources
    | ListResourceTemplates
    | ReadResource(uri: string)
    | ListPrompts
    | GetPrompt(name: string, promptArguments: map<string, string>)

  /** One server tool in the LLM's shape: `inputSchema` becomes `input_schema`,
      every other field of the server's tool is dropped. */
  function ToolSpecOf(t: Tool): ToolSpec {
    ToolSpec(t.name, t.description, t.inputSchema)
  }

  /** The list comprehension of `get_available_tools`: one spec per tool, in server order. */
  function ReshapeTools(tools: seq<Tool>): (specs: seq<ToolSpec>)
    ensures |specs| == |tools|
    ensures forall i | 0 <= i < |tools| :: specs[i] == ToolSpecOf(tools[i])
  {
    seq(|tools|, i requires 0 <= i < |tools| => ToolSpecOf(tools[i]))
  }

  function ToolNames(tools: seq<Tool>): seq<string> {
    if |tools| == 0 then [] else [tools[0].name] + ToolNames(tools[1..])
  }

  function SpecNames(specs: seq<ToolSpec>): seq<string> {
    if |specs| == 0 then [] else [specs[0].name] + SpecNames(specs[1..])
  }

  /** The names the LLM is offered are the server's tool names, in the same
      order, so a `tool_use` naming one of them calls that server tool. */
  lemma {:induction false} ReshapeKeepsNames(tools: seq<Tool>)
    ensures SpecNames(ReshapeTools(tools)) == ToolNames(tools)
    decreases |tools|
  {
    if |tools| > 0 {
      assert ReshapeTools(tools)[1..] == ReshapeTools(tools[1..]);
      ReshapeKeepsNames(tools[1..]);
    }
  }

  /** Reshaping distributes over concatenation of tool lists. */
  lemma ReshapeAppend(a: seq<Tool>, b: seq<Tool>)
    ensures ReshapeTools(a + b) == ReshapeTools(a) + ReshapeTools(b)
  {
    assert forall i | 0 <= i < |a| + |b| :: (a + b)[i] == if i < |a| then a[i] else b[i - |a|];
  }

  /** The string one content block contributes to a tool's result, if any:
      text gives its text, image and audio give their base64 data, an embedded
      resource gives its text or its blob, and a resource link gives nothing. */
  function BlockString(b: ContentBlock): (r: Option<string>)
    ensures r.None? <==> b.ResourceLink?
  {
    match b
    case TextContent(text) => Some(text)
    case ImageContent(data, _) => Some(data)
    case AudioContent(data, _) => Some(data)
    case EmbeddedResource(res) =>
      (match res
       case TextResourceContents(_, _, text) => Some(text)
       case BlobResourceContents(_, _, blob) => Some(blob))
    case ResourceLink(_, _) => None
  }

  /** The strings of a tool result's content blocks, in block order. */
  function FlattenContent(blocks: seq<ContentBlock>): seq<string>
    decreases |blocks|
  {
    if |blocks| == 0 then []
    else
      (match BlockString(blocks[0]) case Some(s) => [s] case None => [])
      + FlattenContent(blocks[1..])
  }

  /** Flattening distributes over concatenation of block lists. */
  lemma {:induction false} FlattenAppend(a: seq<ContentBlock>, b: seq<ContentBlock>)
    ensures FlattenContent(a + b) == FlattenContent(a) + FlattenContent(b)
    decreases |a|
  {
    if |a| == 0 {
      assert a + b == b;
    } else {
      assert (a + b)[1..] == a[1..] + b;
      FlattenAppend(a[1..], b);
    }
  }

  /** The number of resource links among the blocks. */
  function LinkCount(blocks: seq<ContentBlock>): nat
    decreases |blocks|
  {
    if |blocks| == 0 then 0
    else (if blocks[0].ResourceLink? then 1 else 0) + LinkCount(blocks[1..])
  }

  /** Exactly the resource links are dropped: the result has one string per
      other block, never more strings than blocks, and as many only when no
      block is a resource link. */
  lemma {:induction false} FlattenLength(blocks: seq<ContentBlock>)
    ensures |FlattenContent(blocks)| == |blocks| - LinkCount(blocks)
    ensures |FlattenContent(blocks)| <= |blocks|
    ensures |FlattenContent(blocks)| == |blocks| <==> forall i | 0 <= i < |blocks| :: !blocks[i].ResourceLink?
    decreases |blocks|
  {
    if |blocks| > 0 {
      FlattenLength(blocks[1..]);
      if blocks[0].ResourceLink? {
        assert LinkCount(blocks) > 0;
      } else {
        assert forall i | 1 <= i < |blocks| :: blocks[1..][i - 1] == blocks[i];
      }
    }
  }

  /** Without resource links the result maps block i to string i. */
  lemma {:induction false} FlattenWithoutLinks(blocks: seq<ContentBlock>)
    requires forall i | 0 <= i < |blocks| :: !blocks[i].ResourceLink?
    ensures |FlattenContent(blocks)| == |blocks|
    ensures forall i | 0 <= i < |blocks| :: Some(FlattenContent(blocks)[i]) == BlockString(blocks[i])
    decreases |blocks|
  {
    if |blocks| > 0 {
      assert forall i | 0 <= i < |blocks[1..]| :: blocks[1..][i] == blocks[i + 1];
      FlattenWithoutLinks(blocks[1..]);
      var r := FlattenContent(blocks);
      assert r == [BlockString(blocks[0]).value] + FlattenContent(blocks[1..]);
      forall i | 0 <= i < |blocks| ensures Some(r[i]) == BlockString(blocks[i]) {
        if i > 0 {
          assert r[i] == FlattenContent(blocks[1..])[i - 1];
        }
      }
    }
  }
}
