/** The system instruction of a turn: the default instruction, or the text
    of the server's `calculate_operation` prompt rendered with the user's
    input (`load_prompt_as_system` and the prompt selection in the chat
    loop). */
module PromptInstruction {
  import opened Results
  import opened Text
  import opened Mcp
  import opened Client

  const DefaultInstruction := "You are a helpful assistant."
  const CalculatePrompt := "calculate_operation"
  const OperationArgument := "operation"
  const PartSeparator := "\n\n"

  /** The text of one prompt message, if it has one: string content, or a
      content block that carries text. */
  function MessageText(m: PromptMessage): Option<string> {
    match m.content
    case StringContent(s) => Some(s)
    case BlockContent(TextContent(text)) => Some(text)
    case BlockContent(_) => None
  }

  /** The texts of the messages that have one, in order. */
  function PromptTexts(messages: seq<PromptMessage>): seq<string>
    decreases |messages|
  {
    if |messages| == 0 then []
    else
      var last := MessageText(messages[|messages| - 1]);
      PromptTexts(messages[..|messages| - 1]) + (if last.Some? then [last.value] else [])
  }

  /** What `load_prompt_as_system` returns: the texts joined by blank lines,
      or "" when loading the prompt raises. */
  function SystemText(endpoint: Option<Server>, name: string, arguments: Option<map<string, string>>): string {
    match GetPromptOutcome(endpoint, name, arguments.GetOr(map[]))
    case Ok(messages) => Join(PromptTexts(messages), PartSeparator)
    case Err(_) => ""
  }

  /** `load_prompt_as_system`. */
  method LoadPromptAsSystem(client: McpClient, promptName: string, arguments: Option<map<string, string>>) returns (text: string)
    requires client.Valid()
    modifies client`trace
    ensures client.Valid() && client.Endpoint() == old(client.Endpoint())
    ensures text == SystemText(client.Endpoint(), promptName, arguments)
    ensures client.trace == old(client.trace) + Sent(client.Endpoint(), GetPrompt(promptName, arguments.GetOr(map[])))
  {
    var messages := client.LoadPrompt(promptName, Some(arguments.GetOr(map[])));
    if messages.Err? {
      return "";
    }
    var parts: seq<string> := [];
    for i := 0 to |messages.value|
      invariant parts == PromptTexts(messages.value[..i])
    {
      assert messages.value[..i + 1][..i] == messages.value[..i];
      match messages.value[i].content {
        case StringContent(s) =>
          parts := parts + [s];
        case BlockContent(block) =>
          if block.TextContent? {
            parts := parts + [block.text];
          }
      }
    }
    assert messages.value[..|messages.value|] == messages.value;
    text := Join(parts, PartSeparator);
  }

  predicate HasCalculatePrompt(prompts: seq<Prompt>) {
    exists i | 0 <= i < |prompts| :: prompts[i].name == CalculatePrompt
  }

  /** The arguments the `calculate_operation` prompt is rendered with. */
  function OperationArguments(userInput: string): map<string, string> {
    map[OperationArgument := userInput]
  }

  /** The instruction of a turn: the rendered `calculate_operation` prompt
      when the server lists it and its text is not empty, the default
      otherwise. */
  function SystemInstruction(endpoint: Option<Server>, prompts: seq<Prompt>, userInput: string): string {
    if !HasCalculatePrompt(prompts) then DefaultInstruction
    else
      var text := SystemText(endpoint, CalculatePrompt, Some(OperationArguments(userInput)));
      if text != "" then text else DefaultInstruction
  }

  /** The prompt requests choosing the instruction sends. */
  function InstructionRequests(endpoint: Option<Server>, prompts: seq<Prompt>, userInput: string): seq<Request> {
    if HasCalculatePrompt(prompts) then Sent(endpoint, GetPrompt(CalculatePrompt, OperationArguments(userInput))) else []
  }

  /** The prompt selection of a turn: look for `calculate_operation` among
      the listed prompts, load the first one found with the user's input as
      its `operation`, and stop looking. */
  method ChooseSystemInstruction(client: McpClient, prompts: seq<Prompt>, userInput: string) returns (instruction: string)
    requires client.Valid()
    modifies client`trace
    ensures client.Valid() && client.Endpoint() == old(client.Endpoint())
    ensures instruction == SystemInstruction(client.Endpoint(), prompts, userInput)
    ensures client.trace == old(client.trace) + InstructionRequests(client.Endpoint(), prompts, userInput)
  {
    instruction := DefaultInstruction;
    if |prompts| > 0 {
      var i := 0;
      while i < |prompts|
        invariant 0 <= i <= |prompts|
        invariant forall k | 0 <= k < i :: prompts[k].name != CalculatePrompt
        invariant client.trace == old(client.trace)
      {
        if prompts[i].name == CalculatePrompt {
          var text := LoadPromptAsSystem(client, prompts[i].name, Some(OperationArguments(userInput)));
          if text != "" {
            instruction := text;
          }
          break;
        }
        i := i + 1;
      }
    }
    assert client.trace == old(client.trace) ==> client.trace == old(client.trace) + [];
  }

  /** The instruction is never empty. */
  lemma InstructionNotEmpty(endpoint: Option<Server>, prompts: seq<Prompt>, userInput: string)
    ensures SystemInstruction(endpoint, prompts, userInput) != ""
  {
    assert DefaultInstruction[0] == 'Y';
  }

  /** `load_prompt_as_system` gives "" exactly when loading raises, or when
      the messages hold no text or only one empty text. */
  lemma SystemTextEmptyIff(endpoint: Option<Server>, name: string, arguments: Option<map<string, string>>)
    ensures SystemText(endpoint, name, arguments) == "" <==>
      match GetPromptOutcome(endpoint, name, arguments.GetOr(map[]))
      case Err(_) => true
      case Ok(messages) => PromptTexts(messages) == [] || PromptTexts(messages) == [""]
  {
    var outcome := GetPromptOutcome(endpoint, name, arguments.GetOr(map[]));
    if outcome.Ok? {
      JoinEmptyIff(PromptTexts(outcome.value), PartSeparator);
    }
  }

  /** Without a connection the prompt cannot be loaded and the default stays. */
  lemma NotConnectedKeepsDefault(prompts: seq<Prompt>, userInput: string)
    ensures SystemInstruction(None, prompts, userInput) == DefaultInstruction
  {
  }

  /** Every text comes from a message, in order: when every message has a
      text, there is one text per message. */
  lemma {:induction false} AllTextPrompt(messages: seq<PromptMessage>)
    requires forall i | 0 <= i < |messages| :: MessageText(messages[i]).Some?
    ensures |PromptTexts(messages)| == |messages|
    ensures forall i | 0 <= i < |messages| :: PromptTexts(messages)[i] == MessageText(messages[i]).value
    decreases |messages|
  {
    if |messages| > 0 {
      AllTextPrompt(messages[..|messages| - 1]);
    }
  }

  /** Messages without text (images, audio, embedded resources, links) add
      no text. */
  lemma {:induction false} TextlessPrompt(messages: seq<PromptMessage>)
    requires forall i | 0 <= i < |messages| :: MessageText(messages[i]).None?
    ensures PromptTexts(messages) == []
    decreases |messages|
  {
    if |messages| > 0 {
      TextlessPrompt(messages[..|messages| - 1]);
    }
  }
}
