/**
 * The triage stage (agent/agents/triage.py): a bounded request/act/observe loop.
 * The model is asked at most four times, offered only the metrics and dependency
 * tools; every tool it requests is executed in order and the conversation grows
 * by one assistant turn and one user turn per such round; token usage is summed,
 * priced, and logged as exactly one trace step; the final text is parsed, with a
 * fixed fallback result.
 *
 * The model is the scripted `MockClient`, the tool registry a pure `execute`
 * function with a schema list, and the tracer an append-only ghost log.
 */
module Triage {
  import opened Wrappers
  import opened LlmClient
  import opened Models
  import Json
  import Agents
  import Text
  import Lists

  const MaxIterations: nat := 4

  const TriageToolNames: set<string> := {"get_metrics", "get_service_dependencies"}

  /** The tool registry as the stage sees it: its schemas and its `execute` entry point. */
  datatype ToolRegistry = ToolRegistry(
    schemas: seq<ToolSchema>,
    execute: (string, map<string, Json.Value>) -> ToolCall)

  /** One `log_step` call recorded by the decision tracer. */
  datatype TraceEntry = TraceEntry(traceId: string, step: AgentStep)

  /** The decision tracer: an append-only log of steps. */
  class Tracer {
    ghost var steps: seq<TraceEntry>

    constructor ()
      ensures steps == []
    {
      steps := [];
    }

    ghost method LogStep(traceId: string, agentName: string, action: string, reasoning: string,
                         toolCalls: seq<ToolCall>, tokensUsed: int, costUsd: real, now: Instant)
      modifies this
      ensures steps == old(steps)
        + [TraceEntry(traceId, AgentStep(agentName, action, reasoning, toolCalls, tokensUsed, costUsd, now))]
    {
      steps := steps + [TraceEntry(traceId, AgentStep(agentName, action, reasoning, toolCalls, tokensUsed, costUsd, now))];
    }
  }

  // ---------------------------------------------------------------------------
  // The pieces of one round
  // ---------------------------------------------------------------------------

  /** Whether a schema is one of the triage tools. */
  predicate IsTriageSchema(s: ToolSchema) {
    s.name in TriageToolNames
  }

  /**
   * The schemas offered to the model: the comprehension over the registry's schemas
   * keeping those named in `TRIAGE_TOOL_NAMES`, in registry order (`Lists.KeepSnoc`).
   */
  function TriageSchemas(schemas: seq<ToolSchema>): (r: seq<ToolSchema>)
    ensures forall s :: s in r <==> s in schemas && s.name in TriageToolNames
    ensures |r| <= |schemas|
  {
    Lists.KeepMembers(schemas, IsTriageSchema);
    assert forall s :: s in schemas ==> exists i :: 0 <= i < |schemas| && schemas[i] == s;
    Lists.Keep(schemas, IsTriageSchema)
  }

  /** A schema registered after the others is offered after them, exactly when it is a triage tool. */
  lemma TriageSchemasInOrder(schemas: seq<ToolSchema>, s: ToolSchema)
    ensures TriageSchemas(schemas + [s]) == TriageSchemas(schemas) + (if s.name in TriageToolNames then [s] else [])
  {
    Lists.KeepSnoc(schemas, s, IsTriageSchema);
  }

  /** The tool calls produced by executing `requests` one after another. */
  function Executed(requests: seq<ToolRequest>, execute: (string, map<string, Json.Value>) -> ToolCall): (r: seq<ToolCall>)
    ensures |r| == |requests|
  {
    if requests == [] then []
    else Executed(requests[..|requests| - 1], execute) + [execute(requests[|requests| - 1].name, requests[|requests| - 1].input)]
  }

  /** Every requested tool is executed exactly once, in the order requested, with the requested input. */
  lemma {:induction false} ExecutedInOrder(requests: seq<ToolRequest>,
                                           execute: (string, map<string, Json.Value>) -> ToolCall, i: nat)
    requires i < |requests|
    ensures Executed(requests, execute)[i] == execute(requests[i].name, requests[i].input)
  {
    var n := |requests| - 1;
    if i < n {
      ExecutedInOrder(requests[..n], execute, i);
    }
  }

  /** The `tool_result` blocks of the user turn, one per request, with matching ids. */
  function ResultBlocks(requests: seq<ToolRequest>, execute: (string, map<string, Json.Value>) -> ToolCall,
                        codec: Json.Codec): (r: seq<Block>)
    ensures |r| == |requests|
  {
    if requests == [] then []
    else
      var last := requests[|requests| - 1];
      ResultBlocks(requests[..|requests| - 1], execute, codec)
        + [ToolResultBlock(last.id, codec.dumps(execute(last.name, last.input).result))]
  }

  /** Block `i` answers request `i`: its id, and the serialised result of executing it. */
  lemma {:induction false} ResultBlockAt(requests: seq<ToolRequest>,
                                         execute: (string, map<string, Json.Value>) -> ToolCall,
                                         codec: Json.Codec, i: nat)
    requires i < |requests|
    ensures ResultBlocks(requests, execute, codec)[i]
      == ToolResultBlock(requests[i].id, codec.dumps(execute(requests[i].name, requests[i].input).result))
  {
    var n := |requests| - 1;
    if i < n {
      ResultBlockAt(requests[..n], execute, codec, i);
    }
  }

  /** The `tool_use` blocks echoing the requests, in request order. */
  function ToolUseBlocks(requests: seq<ToolRequest>): (r: seq<Block>)
    ensures |r| == |requests|
  {
    if requests == [] then []
    else
      var last := requests[|requests| - 1];
      ToolUseBlocks(requests[..|requests| - 1]) + [ToolUseBlock(last.id, last.name, last.input)]
  }

  /** Block `i` echoes request `i`. */
  lemma {:induction false} ToolUseBlockAt(requests: seq<ToolRequest>, i: nat)
    requires i < |requests|
    ensures ToolUseBlocks(requests)[i] == ToolUseBlock(requests[i].id, requests[i].name, requests[i].input)
  {
    var n := |requests| - 1;
    if i < n {
      ToolUseBlockAt(requests[..n], i);
    }
  }

  /** The assistant turn: the response text (when non-empty), then one `tool_use` per request. */
  function AssistantBlocks(response: Response): seq<Block> {
    (if response.content != "" then [TextBlock(response.content)] else []) + ToolUseBlocks(response.toolCalls)
  }

  /** The two turns a tool-using round appends to the conversation. */
  function RoundTurns(response: Response, registry: ToolRegistry, codec: Json.Codec): seq<Message> {
    [Message("assistant", Blocks(AssistantBlocks(response))),
     Message("user", Blocks(ResultBlocks(response.toolCalls, registry.execute, codec)))]
  }

  /** The opening user turn describing the alert. */
  function AlertMessage(alert: Alert, codec: Json.Codec): Message {
    Message("user", Plain(
      "ALERT RECEIVED:\nService: " + alert.service
      + "\nSeverity: " + SeverityName(alert.severity)
      + "\nDescription: " + alert.description
      + "\nTimestamp: " + codec.isoformat(alert.timestamp)
      + "\nMetadata: " + codec.dumps(Json.Obj(alert.metadata))
      + "\n\nPerform initial triage. Check metrics and dependencies for " + alert.service
      + ", then provide your classification and delegation instructions."))
  }

  /** `(input * 3 + output * 15) / 1_000_000`: the price in dollars of the accumulated usage. */
  function Cost(usage: TokenUsage): (r: real)
    ensures r * 1000000.0 == 3.0 * usage.inputTokens as real + 15.0 * usage.outputTokens as real
  {
    (usage.inputTokens as real * 3.0 + usage.outputTokens as real * 15.0) / 1000000.0
  }

  // ---------------------------------------------------------------------------
  // The whole run, as a function of the script the client still holds
  // ---------------------------------------------------------------------------

  function CallsFrom(pending: seq<Response>, k: nat): (n: nat)
    requires k < MaxIterations
    requires forall j :: 0 <= j < k ==> ScriptedReply(pending, j).toolCalls != []
    ensures k < n <= MaxIterations
    ensures forall j :: 0 <= j < n - 1 ==> ScriptedReply(pending, j).toolCalls != []
    ensures n < MaxIterations ==> ScriptedReply(pending, n - 1).toolCalls == []
    decreases MaxIterations - k
  {
    if ScriptedReply(pending, k).toolCalls == [] || k + 1 == MaxIterations then k + 1
    else CallsFrom(pending, k + 1)
  }

  /**
   * How many times the loop calls `chat`: up to and including the first reply
   * without tool calls, and never more than `MaxIterations`.
   */
  function CallCount(pending: seq<Response>): (n: nat)
    ensures 1 <= n <= MaxIterations
    ensures forall j :: 0 <= j < n - 1 ==> ScriptedReply(pending, j).toolCalls != []
    ensures n < MaxIterations ==> ScriptedReply(pending, n - 1).toolCalls == []
  {
    CallsFrom(pending, 0)
  }

  /** The properties in `CallCount`'s contract determine the count. */
  lemma CallCountIs(pending: seq<Response>, m: nat)
    requires 1 <= m <= MaxIterations
    requires forall j :: 0 <= j < m - 1 ==> ScriptedReply(pending, j).toolCalls != []
    requires m < MaxIterations ==> ScriptedReply(pending, m - 1).toolCalls == []
    ensures CallCount(pending) == m
  {
  }

  /** The first `k` replies all request tools (stated without a quantifier, for the loop). */
  predicate ToolsThroughout(pending: seq<Response>, k: nat) {
    k == 0 || (ToolsThroughout(pending, k - 1) && ScriptedReply(pending, k - 1).toolCalls != [])
  }

  lemma {:induction false} ToolsThroughoutMeans(pending: seq<Response>, k: nat)
    ensures ToolsThroughout(pending, k) <==> forall j :: 0 <= j < k ==> ScriptedReply(pending, j).toolCalls != []
  {
    if k > 0 {
      ToolsThroughoutMeans(pending, k - 1);
    }
  }

  /**
   * Where the loop stands after `i` calls: all replies so far requested tools,
   * except that the last one did not when the loop is `done`.
   */
  predicate Ending(pending: seq<Response>, i: nat, done: bool) {
    if done then 0 < i && ToolsThroughout(pending, i - 1) && ScriptedReply(pending, i - 1).toolCalls == []
    else ToolsThroughout(pending, i)
  }

  /** The loop stops after exactly `CallCount` calls. */
  lemma CallsMade(pending: seq<Response>, i: nat, done: bool)
    requires i <= MaxIterations && Ending(pending, i, done) && (done || i == MaxIterations)
    ensures CallCount(pending) == i
  {
    if done {
      ToolsThroughoutMeans(pending, i - 1);
    } else {
      ToolsThroughoutMeans(pending, i);
    }
    CallCountIs(pending, i);
  }

  /** A script that requests tools in every reply is cut off after exactly four calls. */
  lemma AlwaysToolsMeansFourCalls(pending: seq<Response>)
    requires forall j :: 0 <= j < MaxIterations ==> ScriptedReply(pending, j).toolCalls != []
    ensures CallCount(pending) == MaxIterations
  {
  }

  /** Once the script is exhausted the fixed reply ends the loop, so the cursor stays in range. */
  lemma CallsWithinScript(pending: seq<Response>)
    ensures CallCount(pending) <= |pending| + 1
  {
  }

  /** What stays fixed during a run: the two opening turns, the offered schemas, the tools and the codec. */
  datatype Setup = Setup(system: Message, opening: Message, schemas: seq<ToolSchema>,
                         registry: ToolRegistry, codec: Json.Codec)

  /** The conversation after `k` tool-using rounds (the system turn is sent in front of it). */
  function Conversation(setup: Setup, pending: seq<Response>, k: nat): seq<Message> {
    if k == 0 then [setup.opening]
    else Conversation(setup, pending, k - 1) + RoundTurns(ScriptedReply(pending, k - 1), setup.registry, setup.codec)
  }

  /** The conversation opens with the alert and grows by two turns per round. */
  lemma {:induction false} ConversationShape(setup: Setup, pending: seq<Response>, k: nat)
    ensures |Conversation(setup, pending, k)| == 1 + 2 * k
    ensures Conversation(setup, pending, k)[0] == setup.opening
  {
    if k > 0 {
      ConversationShape(setup, pending, k - 1);
    }
  }

  /** The `call_history` entries left by the first `k` calls. */
  function History(setup: Setup, pending: seq<Response>, k: nat): (h: seq<ChatCall>)
    ensures |h| == k
  {
    if k == 0 then []
    else History(setup, pending, k - 1)
         + [ChatCall([setup.system] + Conversation(setup, pending, k - 1), Some(setup.schemas))]
  }

  /** Call `j` sends the system turn, then the conversation of the `j` rounds before it. */
  lemma {:induction false} HistoryEntry(setup: Setup, pending: seq<Response>, k: nat, j: nat)
    requires j < k
    ensures History(setup, pending, k)[j] == ChatCall([setup.system] + Conversation(setup, pending, j), Some(setup.schemas))
  {
    if j < k - 1 {
      HistoryEntry(setup, pending, k - 1, j);
    }
  }

  /** The usage accumulated over the first `k` replies. */
  function UsageOf(pending: seq<Response>, k: nat): TokenUsage {
    if k == 0 then ZeroUsage else UsageOf(pending, k - 1).Plus(ScriptedReply(pending, k - 1).usage)
  }

  /** The tool calls collected over the first `k` replies. */
  function ToolCallsOf(pending: seq<Response>, k: nat,
                       execute: (string, map<string, Json.Value>) -> ToolCall): seq<ToolCall> {
    if k == 0 then []
    else ToolCallsOf(pending, k - 1, execute) + Executed(ScriptedReply(pending, k - 1).toolCalls, execute)
  }

  /** The trace step lists one tool call per tool requested over the whole run. */
  lemma {:induction false} ToolCallsCount(pending: seq<Response>, k: nat,
                                          execute: (string, map<string, Json.Value>) -> ToolCall)
    ensures |ToolCallsOf(pending, k, execute)| == TotalRequests(pending, k)
  {
    if k > 0 {
      ToolCallsCount(pending, k - 1, execute);
    }
  }

  /** The number of tools requested by the first `k` replies. */
  function TotalRequests(pending: seq<Response>, k: nat): nat {
    if k == 0 then 0 else TotalRequests(pending, k - 1) + |ScriptedReply(pending, k - 1).toolCalls|
  }

  /**
   * In the turns of a round, tool request `i` appears as a `tool_use` block of the
   * assistant turn (after the text block, if any) and is answered, under the same
   * id, by the `tool_result` block `i` of the user turn.
   */
  lemma RoundIdsMatch(response: Response, registry: ToolRegistry, codec: Json.Codec, i: nat)
    requires i < |response.toolCalls|
    ensures var turns := RoundTurns(response, registry, codec);
      var offset := if response.content != "" then 1 else 0;
      var request := response.toolCalls[i];
      && turns[0].role == "assistant" && turns[1].role == "user"
      && turns[0].content.Blocks? && turns[1].content.Blocks?
      && |turns[0].content.blocks| == offset + |response.toolCalls|
      && |turns[1].content.blocks| == |response.toolCalls|
      && turns[0].content.blocks[offset + i] == ToolUseBlock(request.id, request.name, request.input)
      && turns[1].content.blocks[i]
         == ToolResultBlock(request.id, codec.dumps(registry.execute(request.name, request.input).result))
  {
    ToolUseBlockAt(response.toolCalls, i);
    ResultBlockAt(response.toolCalls, registry.execute, codec, i);
  }

  // ---------------------------------------------------------------------------
  // The result
  // ---------------------------------------------------------------------------

  /** The result used when the final text holds no JSON. */
  function Fallback(alert: Alert, content: string): (r: Json.Value)
    ensures r.Obj? && r.fields.Keys
      == {"classification", "affected_services", "priority", "summary", "delegation_instructions"}
    ensures r.fields["classification"] == Json.Str("unknown")
    ensures r.fields["affected_services"] == Json.Arr([Json.Str(alert.service)])
    ensures r.fields["priority"] == Json.Str("P1")
    ensures r.fields["summary"] == Json.Str(content)
    ensures r.fields["delegation_instructions"]
      == Json.Str("Investigate " + alert.service + " for " + alert.description)
  {
    Json.Obj(map[
      "classification" := Json.Str("unknown"),
      "affected_services" := Json.Arr([Json.Str(alert.service)]),
      "priority" := Json.Str("P1"),
      "summary" := Json.Str(content),
      "delegation_instructions" := Json.Str("Investigate " + alert.service + " for " + alert.description)])
  }

  /**
   * What `run` returns for the final text: the extracted object, or the fallback
   * when nothing was extracted. A JSON value that is not an object (a list, a
   * number, a string) makes the `result.get(...)` of the closing log call raise.
   */
  function TriageResult(alert: Alert, content: string, loads: string -> Option<Json.Value>): (r: Result<Json.Value>)
    ensures Agents.ExtractJson(content, loads).None? ==> r == Success(Fallback(alert, content))
    ensures (Agents.ExtractJson(content, loads).Some? && Agents.ExtractJson(content, loads).value.Obj?)
              ==> r == Success(Agents.ExtractJson(content, loads).value)
    ensures r.Failure? <==> Agents.ExtractJson(content, loads).Some? && !Agents.ExtractJson(content, loads).value.Obj?
    ensures r.Success? ==> r.value.Obj?
  {
    match Agents.ExtractJson(content, loads)
    case None => Success(Fallback(alert, content))
    case Some(v) => if v.Obj? then Success(v) else Failure("AttributeError: 'get'")
  }

  // ---------------------------------------------------------------------------
  // The loop
  // ---------------------------------------------------------------------------

  /** Execute the requested tools in order, collecting the calls and their `tool_result` blocks. */
  method ExecuteRequests(requests: seq<ToolRequest>, registry: ToolRegistry, codec: Json.Codec)
    returns (calls: seq<ToolCall>, results: seq<Block>)
    ensures calls == Executed(requests, registry.execute)
    ensures results == ResultBlocks(requests, registry.execute, codec)
  {
    calls, results := [], [];
    var j := 0;
    while j < |requests|
      invariant 0 <= j <= |requests|
      invariant calls == Executed(requests[..j], registry.execute)
      invariant results == ResultBlocks(requests[..j], registry.execute, codec)
    {
      var request := requests[j];
      var call := registry.execute(request.name, request.input);
      calls := calls + [call];
      results := results + [ToolResultBlock(request.id, codec.dumps(call.result))];
      assert requests[..j + 1][..j] == requests[..j];
      j := j + 1;
    }
    assert requests[..j] == requests;
  }

  /** Build the assistant turn: the text block, then one `tool_use` block per request. */
  method RequestBlocks(response: Response) returns (blocks: seq<Block>)
    ensures blocks == AssistantBlocks(response)
  {
    var head: seq<Block> := if response.content != "" then [TextBlock(response.content)] else [];
    var uses: seq<Block> := [];
    var j := 0;
    while j < |response.toolCalls|
      invariant 0 <= j <= |response.toolCalls|
      invariant uses == ToolUseBlocks(response.toolCalls[..j])
    {
      var request := response.toolCalls[j];
      uses := uses + [ToolUseBlock(request.id, request.name, request.input)];
      assert response.toolCalls[..j + 1][..j] == response.toolCalls[..j];
      j := j + 1;
    }
    assert response.toolCalls[..j] == response.toolCalls;
    blocks := head + uses;
  }

  /** One tool-using round: run the tools, then build the assistant and user turns. */
  method ToolRound(response: Response, registry: ToolRegistry, codec: Json.Codec)
    returns (executed: seq<ToolCall>, turns: seq<Message>)
    ensures executed == Executed(response.toolCalls, registry.execute)
    ensures turns == RoundTurns(response, registry, codec)
  {
    var results;
    executed, results := ExecuteRequests(response.toolCalls, registry, codec);
    var blocks := RequestBlocks(response);
    turns := [Message("assistant", Blocks(blocks)), Message("user", Blocks(results))];
  }

  function Min(a: nat, b: nat): nat {
    if a <= b then a else b
  }

  /** After `i` calls the client's next reply is the `i`-th of the script it started with. */
  lemma NextReply(responses: seq<Response>, start: nat, i: nat)
    requires start <= |responses|
    requires start + Min(i, |responses| - start) <= |responses|
    ensures ScriptedReply(responses[start + Min(i, |responses| - start)..], 0)
            == ScriptedReply(responses[start..], i)
  {
  }

  /** What the loop keeps true after `i` calls, apart from the conversation. */
  ghost predicate Tracks(client: MockClient, setup: Setup, pending: seq<Response>, start: nat,
                         history: seq<ChatCall>, i: nat, usage: TokenUsage, toolCalls: seq<ToolCall>)
    reads client
  {
    && client.Valid() && start <= |client.responses| && pending == client.responses[start..]
    && client.callIndex == start + Min(i, |pending|)
    && client.callHistory == history + History(setup, pending, i)
    && usage == UsageOf(pending, i)
    && toolCalls == ToolCallsOf(pending, i, setup.registry.execute)
  }

  /**
   * What the loop keeps true after `i` calls: the client's state and the sums so
   * far, how the replies so far ended, and, while it goes on, the conversation.
   */
  ghost predicate Looping(client: MockClient, setup: Setup, pending: seq<Response>, start: nat,
                          history: seq<ChatCall>, i: nat, done: bool, messages: seq<Message>,
                          usage: TokenUsage, toolCalls: seq<ToolCall>)
    reads client
  {
    && i <= MaxIterations
    && Tracks(client, setup, pending, start, history, i, usage, toolCalls)
    && Ending(pending, i, done)
    && (!done ==> messages == Conversation(setup, pending, i))
  }

  /**
   * One pass of the loop body: ask the model; when it requests tools, run them
   * and extend the conversation; `stop` says the loop breaks.
   */
  method Round(client: MockClient, setup: Setup, messages: seq<Message>, usage: TokenUsage,
               toolCalls: seq<ToolCall>, ghost pending: seq<Response>, ghost start: nat,
               ghost history: seq<ChatCall>, ghost i: nat)
    returns (response: Response, messages': seq<Message>, usage': TokenUsage,
             toolCalls': seq<ToolCall>, stop: bool)
    requires Tracks(client, setup, pending, start, history, i, usage, toolCalls)
    requires messages == Conversation(setup, pending, i)
    modifies client
    ensures client.responses == old(client.responses)
    ensures Tracks(client, setup, pending, start, history, i + 1, usage', toolCalls')
    ensures response == ScriptedReply(pending, i)
    ensures stop <==> response.toolCalls == []
    ensures !stop ==> messages' == Conversation(setup, pending, i + 1)
  {
    NextReply(client.responses, start, i);
    response := client.Chat([setup.system] + messages, Some(setup.schemas));
    Text.AppendAssoc(history, History(setup, pending, i), [ChatCall([setup.system] + messages, Some(setup.schemas))]);
    usage' := usage.Plus(response.usage);
    if response.toolCalls == [] {
      messages', toolCalls', stop := messages, toolCalls, true;
      return;
    }
    var executed, turns := ToolRound(response, setup.registry, setup.codec);
    toolCalls' := toolCalls + executed;
    messages' := messages + turns;
    stop := false;
  }

  /**
   * The state a finished loop leaves, for a client that started with script `pending`,
   * cursor `start` and history `history`: `calls` is `CallCount(pending)`, the cursor
   * moved past the replies used, each call is recorded, and the last reply, the usage
   * and the tool calls are those of the script.
   */
  ghost predicate Conversed(client: MockClient, setup: Setup, pending: seq<Response>, start: nat,
                            history: seq<ChatCall>, response: Response, usage: TokenUsage,
                            toolCalls: seq<ToolCall>, calls: nat)
    reads client
  {
    && calls == CallCount(pending)
    && client.callIndex == start + Min(calls, |pending|)
    && client.callHistory == history + History(setup, pending, calls)
    && response == ScriptedReply(pending, calls - 1)
    && usage == UsageOf(pending, calls)
    && toolCalls == ToolCallsOf(pending, calls, setup.registry.execute)
  }

  /**
   * The bounded loop of `TriageAgent.run`: call the model, stop at the first reply
   * without tool calls, otherwise execute the tools and extend the conversation.
   * Returns the last reply, the summed usage, every tool call made, and how many
   * calls there were.
   */
  method Converse(client: MockClient, setup: Setup)
    returns (response: Response, usage: TokenUsage, allToolCalls: seq<ToolCall>, calls: nat)
    requires client.Valid()
    modifies client
    ensures client.Valid() && client.responses == old(client.responses)
    ensures Conversed(client, setup, old(client.Pending()), old(client.callIndex), old(client.callHistory),
                      response, usage, allToolCalls, calls)
  {
    var messages := [setup.opening];
    usage := ZeroUsage;
    allToolCalls := [];
    ghost var pending := client.Pending();
    ghost var start := client.callIndex;
    ghost var history := client.callHistory;
    response := ExhaustedReply;
    var i := 0;
    var done := false;
    assert client.callHistory == history + History(setup, pending, 0);
    while !done && i < MaxIterations
      invariant Looping(client, setup, pending, start, history, i, done, messages, usage, allToolCalls)
      invariant client.responses == old(client.responses)
      invariant i > 0 ==> response == ScriptedReply(pending, i - 1)
      decreases MaxIterations - i
    {
      response, messages, usage, allToolCalls, done :=
        Round(client, setup, messages, usage, allToolCalls, pending, start, history, i);
      i := i + 1;
    }
    CallsMade(pending, i, done);
    calls := i;
  }

  /**
   * `TriageAgent.run`. The client's script, as it stands when the run starts,
   * decides everything: how many calls are made, what each is sent, which
   * tools are executed, the usage and cost logged, and the result.
   */
  method Run(alert: Alert, traceId: string, client: MockClient, registry: ToolRegistry, tracer: Tracer,
             codec: Json.Codec, systemPrompt: string, now: Instant) returns (result: Result<Json.Value>)
    requires client.Valid()
    modifies client, tracer
    ensures client.Valid() && client.responses == old(client.responses)
    ensures var pending := old(client.Pending());
      var setup := Setup(Message("system", Plain(systemPrompt)), AlertMessage(alert, codec),
                         TriageSchemas(registry.schemas), registry, codec);
      var n := CallCount(pending);
      var usage := UsageOf(pending, n);
      var final := ScriptedReply(pending, n - 1);
      && client.callIndex == old(client.callIndex) + Min(n, |pending|)
      && client.callHistory == old(client.callHistory) + History(setup, pending, n)
      && tracer.steps == old(tracer.steps)
           + [TraceEntry(traceId, AgentStep("triage", "triage_classification", final.content,
                                            ToolCallsOf(pending, n, registry.execute),
                                            usage.TotalTokens(), Cost(usage), now))]
      && result == TriageResult(alert, final.content, codec.loads)
  {
    var setup := Setup(Message("system", Plain(systemPrompt)), AlertMessage(alert, codec),
                       TriageSchemas(registry.schemas), registry, codec);
    ghost var pending := client.Pending();
    var response, usage, allToolCalls, calls := Converse(client, setup);
    assert calls == CallCount(pending) && response == ScriptedReply(pending, calls - 1);
    assert usage == UsageOf(pending, calls) && allToolCalls == ToolCallsOf(pending, calls, registry.execute);
    var cost := Cost(usage);
    tracer.LogStep(traceId, "triage", "triage_classification", response.content, allToolCalls,
                   usage.TotalTokens(), cost, now);
    result := TriageResult(alert, response.content, codec.loads);
  }
}
