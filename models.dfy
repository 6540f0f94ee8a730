/**
 * The record types of the incident-analysis pipeline (agent/models.py), with the
 * validation the source's pydantic models perform when they are constructed:
 * the severity and message-type literals, the confidence range, and the defaults
 * of the optional fields.
 */
module Models {
  import opened Wrappers
  import Json

  /** Datetimes are instants on a totally ordered time line. */
  type Instant = int

  datatype Severity = Critical | High | Medium | Low

  function SeverityName(s: Severity): string {
    match s
    case Critical => "critical"
    case High => "high"
    case Medium => "medium"
    case Low => "low"
  }

  /** The `Literal["critical", "high", "medium", "low"]` check on a raw string. */
  function ParseSeverity(name: string): (r: Option<Severity>)
    ensures r.Some? <==> name in {"critical", "high", "medium", "low"}
    ensures r.Some? ==> SeverityName(r.value) == name
  {
    if name == "critical" then Some(Critical)
    else if name == "high" then Some(High)
    else if name == "medium" then Some(Medium)
    else if name == "low" then Some(Low)
    else None
  }

  lemma SeverityRoundTrip(s: Severity)
    ensures ParseSeverity(SeverityName(s)) == Some(s)
  {
  }

  datatype Alert = Alert(
    service: string,
    description: string,
    severity: Severity,
    timestamp: Instant,
    metadata: map<string, Json.Value>)

  /**
   * Building an `Alert` from raw fields: an unknown severity is a validation
   * error, and a missing `metadata` becomes the empty map.
   */
  function NewAlert(service: string, description: string, severity: string, timestamp: Instant,
                    metadata: Option<map<string, Json.Value>>): (r: Result<Alert>)
    ensures r.Success? <==> severity in {"critical", "high", "medium", "low"}
    ensures r.Success? ==> (r.value.service == service && r.value.description == description
      && SeverityName(r.value.severity) == severity && r.value.timestamp == timestamp)
    ensures r.Success? && metadata.None? ==> r.value.metadata == map[]
    ensures r.Success? && metadata.Some? ==> r.value.metadata == metadata.value
  {
    match ParseSeverity(severity)
    case None => Failure("ValidationError: severity")
    case Some(sev) => Success(Alert(service, description, sev, timestamp, metadata.GetOr(map[])))
  }

  datatype ToolCall = ToolCall(
    toolName: string,
    arguments: map<string, Json.Value>,
    result: Json.Value,
    latencyMs: real,
    costUsd: real)

  datatype AgentStep = AgentStep(
    agentName: string,
    action: string,
    reasoning: string,
    toolCalls: seq<ToolCall>,
    tokensUsed: int,
    costUsd: real,
    timestamp: Instant)

  /** An `AgentStep` built without `tool_calls` records none. */
  function NewAgentStep(agentName: string, action: string, reasoning: string, tokensUsed: int,
                        costUsd: real, timestamp: Instant): (r: AgentStep)
    ensures r.toolCalls == []
    ensures r.agentName == agentName && r.action == action && r.reasoning == reasoning
    ensures r.tokensUsed == tokensUsed && r.costUsd == costUsd && r.timestamp == timestamp
  {
    AgentStep(agentName, action, reasoning, [], tokensUsed, costUsd, timestamp)
  }

  /** `Field(ge=0.0, le=1.0)`: a confidence score. */
  type Confidence = r: real | 0.0 <= r <= 1.0

  datatype IncidentReport = IncidentReport(
    incidentId: string,
    alert: Alert,
    summary: string,
    rootCause: string,
    confidenceScore: Confidence,
    remediationSteps: seq<string>,
    agentTrace: seq<AgentStep>,
    totalTokens: int,
    totalCostUsd: real,
    durationSeconds: real,
    requiresHumanApproval: bool)

  /**
   * Building an `IncidentReport` from raw fields: a confidence outside [0, 1] is a
   * validation error, and a missing `agent_trace` is the empty trace.
   */
  function NewIncidentReport(incidentId: string, alert: Alert, summary: string, rootCause: string,
                             confidence: real, remediationSteps: seq<string>,
                             agentTrace: Option<seq<AgentStep>>, totalTokens: int,
                             totalCostUsd: real, durationSeconds: real,
                             requiresHumanApproval: bool): (r: Result<IncidentReport>)
    ensures r.Success? <==> 0.0 <= confidence <= 1.0
    ensures r.Success? ==> (r.value.confidenceScore == confidence && r.value.alert == alert
      && r.value.incidentId == incidentId && r.value.remediationSteps == remediationSteps
      && r.value.requiresHumanApproval == requiresHumanApproval)
    ensures r.Success? ==> (r.value.summary == summary && r.value.rootCause == rootCause
      && r.value.totalTokens == totalTokens && r.value.totalCostUsd == totalCostUsd
      && r.value.durationSeconds == durationSeconds)
    ensures r.Success? && agentTrace.None? ==> r.value.agentTrace == []
    ensures r.Success? && agentTrace.Some? ==> r.value.agentTrace == agentTrace.value
  {
    if 0.0 <= confidence <= 1.0 then
      Success(IncidentReport(incidentId, alert, summary, rootCause, confidence, remediationSteps,
                             agentTrace.GetOr([]), totalTokens, totalCostUsd, durationSeconds,
                             requiresHumanApproval))
    else
      Failure("ValidationError: confidence_score")
  }

  datatype MessageType = Delegate | Respond | Escalate

  function MessageTypeName(t: MessageType): string {
    match t
    case Delegate => "delegate"
    case Respond => "respond"
    case Escalate => "escalate"
  }

  /** The `Literal["delegate", "respond", "escalate"]` check on a raw string. */
  function ParseMessageType(name: string): (r: Option<MessageType>)
    ensures r.Some? <==> name in {"delegate", "respond", "escalate"}
    ensures r.Some? ==> MessageTypeName(r.value) == name
  {
    if name == "delegate" then Some(Delegate)
    else if name == "respond" then Some(Respond)
    else if name == "escalate" then Some(Escalate)
    else None
  }

  lemma MessageTypeRoundTrip(t: MessageType)
    ensures ParseMessageType(MessageTypeName(t)) == Some(t)
  {
  }

  datatype AgentMessage = AgentMessage(
    fromAgent: string,
    toAgent: string,
    messageType: MessageType,
    content: map<string, Json.Value>,
    traceId: string)

  /** Building an `AgentMessage` from raw fields: an unknown message type is rejected. */
  function NewAgentMessage(fromAgent: string, toAgent: string, messageType: string,
                           content: map<string, Json.Value>, traceId: string): (r: Result<AgentMessage>)
    ensures r.Success? <==> messageType in {"delegate", "respond", "escalate"}
    ensures r.Success? ==> (MessageTypeName(r.value.messageType) == messageType
      && r.value.fromAgent == fromAgent && r.value.toAgent == toAgent
      && r.value.content == content && r.value.traceId == traceId)
  {
    match ParseMessageType(messageType)
    case None => Failure("ValidationError: message_type")
    case Some(t) => Success(AgentMessage(fromAgent, toAgent, t, content, traceId))
  }
}
