/**
 * The language-model layer (agent/llm_client.py): token usage, the standard
 * response record, the conversation a client is sent, the scripted `MockClient`
 * and the `create_client` factory.
 */
module LlmClient {
  import opened Wrappers
  import Json

  /** Token counts of one response; both default to 0. */
  datatype TokenUsage = TokenUsage(inputTokens: int, outputTokens: int) {
    function TotalTokens(): int {
      inputTokens + outputTokens
    }

    /** The field-wise sum, as `total_usage.x += response.usage.x` accumulates it. */
    function Plus(other: TokenUsage): (r: TokenUsage)
      ensures r.TotalTokens() == TotalTokens() + other.TotalTokens()
      ensures r.inputTokens == inputTokens + other.inputTokens
      ensures r.outputTokens == outputTokens + other.outputTokens
    {
      TokenUsage(inputTokens + other.inputTokens, outputTokens + other.outputTokens)
    }
  }

  const ZeroUsage := TokenUsage(0, 0)

  /** A tool invocation requested by the model: `{"id", "name", "input"}`. */
  datatype ToolRequest = ToolRequest(id: string, name: string, input: map<string, Json.Value>)

  datatype Response = Response(
    content: string,
    toolCalls: seq<ToolRequest>,
    usage: TokenUsage,
    model: string,
    stopReason: string)

  /** A `Response` built from its text alone: no tool calls, zero usage, empty labels. */
  function NewResponse(content: string): (r: Response)
    ensures r.content == content && r.toolCalls == [] && r.usage.TotalTokens() == 0
    ensures r.usage == ZeroUsage && r.model == "" && r.stopReason == ""
  {
    Response(content, [], ZeroUsage, "", "")
  }

  /** The content blocks of a conversation turn. */
  datatype Block =
    | TextBlock(text: string)
    | ToolUseBlock(id: string, name: string, input: map<string, Json.Value>)
    | ToolResultBlock(toolUseId: string, resultText: string)

  datatype Content = Plain(text: string) | Blocks(blocks: seq<Block>)

  datatype Message = Message(role: string, content: Content)

  /** A tool schema as offered to the model; only its name matters to the core. */
  datatype ToolSchema = ToolSchema(name: string, description: string, inputSchema: Json.Value)

  /** One entry of `call_history`: `{"messages": ..., "tools": ...}`. */
  datatype ChatCall = ChatCall(messages: seq<Message>, tools: Option<seq<ToolSchema>>)

  /** What `MockClient.chat` answers once its scripted responses are used up. */
  const ExhaustedReply := Response(
    "Mock response (no scripted response available)", [], TokenUsage(10, 10), "mock", "end_turn")

  /**
   * The reply a `MockClient` gives on its `k`-th call from now, when `pending`
   * are the scripted responses it has not handed out yet.
   */
  function ScriptedReply(pending: seq<Response>, k: nat): (r: Response)
    ensures k < |pending| ==> r == pending[k]
    ensures k >= |pending| ==> r == ExhaustedReply && r.toolCalls == []
  {
    if k < |pending| then pending[k] else ExhaustedReply
  }

  /** The scripted client: a list of responses, a cursor into it, and a call history. */
  class MockClient {
    var responses: seq<Response>
    var callIndex: nat
    var callHistory: seq<ChatCall>

    ghost predicate Valid()
      reads this
    {
      callIndex <= |responses|
    }

    /** The scripted responses not handed out yet. */
    ghost function Pending(): seq<Response>
      reads this
      requires Valid()
    {
      responses[callIndex..]
    }

    /** `MockClient(responses)`: `None` and `[]` both give an empty script. */
    constructor (responses: Option<seq<Response>>)
      ensures Valid()
      ensures this.responses == responses.GetOr([])
      ensures callIndex == 0 && callHistory == []
    {
      this.responses := responses.GetOr([]);
      callIndex := 0;
      callHistory := [];
    }

    /** `add_response`: append to the end of the script, nothing else changes. */
    method AddResponse(response: Response)
      requires Valid()
      modifies this
      ensures Valid()
      ensures responses == old(responses) + [response]
      ensures callIndex == old(callIndex) && callHistory == old(callHistory)
      ensures Pending() == old(Pending()) + [response]
    {
      responses := responses + [response];
    }

    /**
     * `chat`: record the call, then hand out the next scripted response and
     * advance the cursor, or answer the fixed reply once the script is exhausted.
     */
    method Chat(messages: seq<Message>, tools: Option<seq<ToolSchema>>) returns (r: Response)
      requires Valid()
      modifies this
      ensures Valid()
      ensures callHistory == old(callHistory) + [ChatCall(messages, tools)]
      ensures responses == old(responses)
      ensures old(callIndex) < |responses| ==> r == responses[old(callIndex)] && callIndex == old(callIndex) + 1
      ensures old(callIndex) >= |responses| ==> r == ExhaustedReply && callIndex == old(callIndex)
      ensures r == ScriptedReply(old(Pending()), 0)
    {
      callHistory := callHistory + [ChatCall(messages, tools)];
      if callIndex < |responses| {
        r := responses[callIndex];
        callIndex := callIndex + 1;
      } else {
        r := ExhaustedReply;
      }
    }
  }

  /** Which client `create_client` builds. */
  datatype ClientKind = AnthropicClient | MockClientKind

  /**
   * `create_client(provider)`: an empty or missing provider falls back to the
   * `LLM_PROVIDER` environment variable (`environment`), then to "anthropic";
   * any name other than "anthropic" or "mock" is a `ValueError`.
   */
  function CreateClient(provider: Option<string>, environment: Option<string>): (r: Result<ClientKind>)
    ensures var name := ResolveProvider(provider, environment);
      && (r == Success(AnthropicClient) <==> name == "anthropic")
      && (r == Success(MockClientKind) <==> name == "mock")
      && (r.Failure? <==> name !in {"anthropic", "mock"})
      && (r.Failure? ==> r.error == "ValueError: Unknown LLM provider: " + name)
  {
    var name := ResolveProvider(provider, environment);
    if name == "anthropic" then Success(AnthropicClient)
    else if name == "mock" then Success(MockClientKind)
    else Failure("ValueError: Unknown LLM provider: " + name)
  }

  /** `provider or os.environ.get("LLM_PROVIDER", "anthropic")`. */
  function ResolveProvider(provider: Option<string>, environment: Option<string>): (name: string)
    ensures provider.Some? && provider.value != "" ==> name == provider.value
    ensures (provider.None? || provider.value == "") && environment.None? ==> name == "anthropic"
    ensures (provider.None? || provider.value == "") && environment.Some? ==> name == environment.value
  {
    if provider.Some? && provider.value != "" then provider.value else environment.GetOr("anthropic")
  }

  /** With no argument and no environment setting, the default is the Anthropic client. */
  lemma DefaultProviderIsAnthropic()
    ensures CreateClient(None, None) == Success(AnthropicClient)
  {
  }
}
