/** The LLM's message contract as the agents use it: content blocks,
    role-tagged messages, the request sent each round and the response that
    comes back, and the choice of the final answer from a response. */
module Llm {
  import opened Results
  import opened Text
  import opened Mcp

  /** A content block of a message. `ImageBlock` is an inline base64 image;
      `OtherBlock` stands for response blocks that carry no `text` (thinking,
      for one). */
  datatype Block =
    | TextBlock(text: string)
    | ImageBlock(mediaType: string, data: string)
    | ToolUseBlock(id: string, name: string, input: Json)
    | ToolResultBlock(toolUseId: string, content: string)
    | OtherBlock(kind: string)

  /** A message's content: a bare string or a list of blocks. */
  datatype Content = PlainText(text: string) | Blocks(blocks: seq<Block>)

  datatype Message = Message(role: Role, content: Content)

  /** `tool_choice={"type": "auto"}`. */
  datatype ToolChoice = AutoChoice

  datatype LlmRequest = LlmRequest(
    model: string,
    maxTokens: nat,
    system: Option<string>,
    messages: seq<Message>,
    tools: Option<seq<ToolSpec>>,
    toolChoice: Option<ToolChoice>)

  datatype Response = Response(stopReason: string, content: seq<Block>)

  const ModelName: string := "claude-sonnet-4-5-20250929"
  const MaxTokens: nat := 4096
  const ToolUseStop: string := "tool_use"
  const NoTextSentinel: string := "[No text response available]"

  /** A block that has `text` and whose `text.strip()` is not empty. */
  predicate IsVisibleText(b: Block) {
    b.TextBlock? && Strip(b.text) != ""
  }

  /** The `text_blocks` comprehension: the visible texts of a response, in
      order and unstripped. */
  function VisibleTexts(blocks: seq<Block>): seq<string>
    decreases |blocks|
  {
    if |blocks| == 0 then []
    else (if IsVisibleText(blocks[0]) then [blocks[0].text] else []) + VisibleTexts(blocks[1..])
  }

  /** The answer printed for a final response: the first visible text, or the sentinel. */
  function FinalAnswer(blocks: seq<Block>): string {
    var texts := VisibleTexts(blocks);
    if |texts| > 0 then texts[0] else NoTextSentinel
  }

  /** The final answer is the raw (unstripped) text of the first block whose
      stripped text is not empty. */
  lemma {:induction false} FinalAnswerIsFirstVisible(blocks: seq<Block>, k: nat)
    requires k < |blocks| && IsVisibleText(blocks[k])
    requires forall j | 0 <= j < k :: !IsVisibleText(blocks[j])
    ensures FinalAnswer(blocks) == blocks[k].text
    decreases k
  {
    if k > 0 {
      assert VisibleTexts(blocks) == VisibleTexts(blocks[1..]);
      assert forall j | 0 <= j < k - 1 :: blocks[1..][j] == blocks[j + 1];
      FinalAnswerIsFirstVisible(blocks[1..], k - 1);
    }
  }

  /** With no visible text block the answer is the sentinel. */
  lemma {:induction false} FinalAnswerWithoutText(blocks: seq<Block>)
    requires forall k | 0 <= k < |blocks| :: !IsVisibleText(blocks[k])
    ensures VisibleTexts(blocks) == [] && FinalAnswer(blocks) == NoTextSentinel
    decreases |blocks|
  {
    if |blocks| > 0 {
      assert forall k | 0 <= k < |blocks[1..]| :: blocks[1..][k] == blocks[k + 1];
      FinalAnswerWithoutText(blocks[1..]);
    }
  }

  /** A response text block counts as an answer exactly when it has a
      non-whitespace character. */
  lemma VisibleIffNotBlank(b: Block)
    requires b.TextBlock?
    ensures IsVisibleText(b) <==> !AllSpace(b.text)
  {
    StripEmptyIff(b.text);
  }

  /** The `tool_use_blocks` comprehension: the tool-use blocks of a response, in order. */
  function ToolUses(blocks: seq<Block>): (uses: seq<Block>)
    ensures forall i | 0 <= i < |uses| :: uses[i].ToolUseBlock?
    ensures |uses| <= |blocks|
    decreases |blocks|
  {
    if |blocks| == 0 then []
    else (if blocks[0].ToolUseBlock? then [blocks[0]] else []) + ToolUses(blocks[1..])
  }

  /** Tool-use extraction distributes over concatenation, so it keeps every
      tool-use block of the response and their order. */
  lemma {:induction false} ToolUsesAppend(a: seq<Block>, b: seq<Block>)
    ensures ToolUses(a + b) == ToolUses(a) + ToolUses(b)
    decreases |a|
  {
    if |a| == 0 {
      assert a + b == b;
    } else {
      assert (a + b)[1..] == a[1..] + b;
      ToolUsesAppend(a[1..], b);
    }
  }
}
