/** The event logger: the four event records and their dictionary form, the
    derived token total, levels and messages, the `InteractionLogger` that
    stamps and hands records to the channel loggers, the `timing` metric,
    the module-wide logger slot and the two decorators.

    Identifiers come from an id source (standing for `uuid.uuid4`), and the
    current time is a parameter of every call that reads the clock. A call
    into a channel logger is recorded as an `Emission` on a shared log:
    either a ready record handed to `Logger.handle`, or the level, message
    and extra fields given to `Logger.log`. */
module Events {
  import opened Common
  import opened Text
  import opened Clock
  import opened Levels
  import opened Formatters

  // ---------------------------------------------------------------------
  // The event records and `asdict`

  datatype InteractionEvent = InteractionEvent(
    eventId: string,
    sessionId: string,
    timestamp: string,
    eventType: string,
    userInput: Option<string>,
    agentResponse: Option<string>,
    agentName: Option<string>,
    toolName: Option<string>,
    toolInput: Option<map<string, Value>>,
    toolOutput: Option<string>,
    durationMs: Option<real>,
    metadata: Option<map<string, Value>>,
    error: Option<string>)
  {
    /** `dataclasses.asdict`: one entry per field, under the field's name. */
    function AsDict(): map<string, Value> {
      map[
        "event_id" := VStr(eventId),
        "session_id" := VStr(sessionId),
        "timestamp" := VStr(timestamp),
        "event_type" := VStr(eventType),
        "user_input" := OptStr(userInput),
        "agent_response" := OptStr(agentResponse),
        "agent_name" := OptStr(agentName),
        "tool_name" := OptStr(toolName),
        "tool_input" := OptMap(toolInput),
        "tool_output" := OptStr(toolOutput),
        "duration_ms" := OptReal(durationMs),
        "metadata" := OptMap(metadata),
        "error" := OptStr(error)]
    }
  }

  datatype WorkflowEvent = WorkflowEvent(
    eventId: string,
    sessionId: string,
    timestamp: string,
    workflowType: string,
    nodeName: string,
    status: string,
    inputData: Option<map<string, Value>>,
    outputData: Option<map<string, Value>>,
    durationMs: Option<real>,
    error: Option<string>)
  {
    function AsDict(): map<string, Value> {
      map[
        "event_id" := VStr(eventId),
        "session_id" := VStr(sessionId),
        "timestamp" := VStr(timestamp),
        "workflow_type" := VStr(workflowType),
        "node_name" := VStr(nodeName),
        "status" := VStr(status),
        "input_data" := OptMap(inputData),
        "output_data" := OptMap(outputData),
        "duration_ms" := OptReal(durationMs),
        "error" := OptStr(error)]
    }
  }

  datatype AgentActivity = AgentActivity(
    eventId: string,
    sessionId: string,
    timestamp: string,
    agentName: string,
    activityType: string,
    llmModel: Option<string>,
    promptTokens: Option<int>,
    completionTokens: Option<int>,
    totalTokens: Option<int>,
    durationMs: Option<real>,
    inputData: Option<string>,
    outputData: Option<string>,
    metadata: Option<map<string, Value>>)
  {
    function AsDict(): map<string, Value> {
      map[
        "event_id" := VStr(eventId),
        "session_id" := VStr(sessionId),
        "timestamp" := VStr(timestamp),
        "agent_name" := VStr(agentName),
        "activity_type" := VStr(activityType),
        "llm_model" := OptStr(llmModel),
        "prompt_tokens" := OptInt(promptTokens),
        "completion_tokens" := OptInt(completionTokens),
        "total_tokens" := OptInt(totalTokens),
        "duration_ms" := OptReal(durationMs),
        "input_data" := OptStr(inputData),
        "output_data" := OptStr(outputData),
        "metadata" := OptMap(metadata)]
    }
  }

  datatype ToolUsage = ToolUsage(
    eventId: string,
    sessionId: string,
    timestamp: string,
    toolName: string,
    agentName: Option<string>,
    inputParameters: Option<map<string, Value>>,
    outputResult: Option<string>,
    durationMs: Option<real>,
    success: bool,
    error: Option<string>)
  {
    function AsDict(): map<string, Value> {
      map[
        "event_id" := VStr(eventId),
        "session_id" := VStr(sessionId),
        "timestamp" := VStr(timestamp),
        "tool_name" := VStr(toolName),
        "agent_name" := OptStr(agentName),
        "input_parameters" := OptMap(inputParameters),
        "output_result" := OptStr(outputResult),
        "duration_ms" := OptReal(durationMs),
        "success" := VBool(success),
        "error" := OptStr(error)]
    }
  }

  // ---------------------------------------------------------------------
  // Derived fields

  /** `(p or 0) + (c or 0) if p and c else None`. */
  function TotalTokens(p: Option<int>, c: Option<int>): Option<int> {
    if TruthyInt(p) && TruthyInt(c) then Some(p.GetOr(0) + c.GetOr(0)) else None
  }

  /** The total is the plain sum exactly when both counts are given and
      neither is zero; a missing or zero count gives no total at all. */
  lemma TotalTokensRule(p: Option<int>, c: Option<int>)
    ensures TotalTokens(p, c).Some? <==> p.Some? && c.Some? && p.value != 0 && c.value != 0
    ensures TotalTokens(p, c).Some? ==> TotalTokens(p, c).value == p.value + c.value
  {
  }

  function WorkflowLevel(status: string): int {
    if status == "error" then ERROR else INFO
  }

  /** `f"Workflow {workflow_type}.{node_name}: {status}"`, then
      `f" - {error}"` when the error is non-empty. */
  function WorkflowMessage(workflowType: string, nodeName: string, status: string, error: Option<string>): string {
    var head := "Workflow " + workflowType + "." + nodeName + ": " + status;
    if TruthyStr(error) then head + " - " + error.value else head
  }

  /** The workflow message starts with its fixed part and carries the error,
      and nothing else, after it; so two messages with the same fixed part
      agree on whether there was an error and on its text. */
  lemma WorkflowMessageParts(workflowType: string, nodeName: string, status: string, error: Option<string>)
    ensures var head := "Workflow " + workflowType + "." + nodeName + ": " + status;
      var m := WorkflowMessage(workflowType, nodeName, status, error);
      && head <= m
      && (TruthyStr(error) <==> |m| > |head|)
      && (TruthyStr(error) ==> m[|head|..] == " - " + error.value)
    ensures WorkflowLevel(status) == ERROR <==> status == "error"
    ensures WorkflowLevel(status) != ERROR ==> WorkflowLevel(status) == INFO
  {
  }

  function ToolLevel(success: bool): int {
    if !success then ERROR else INFO
  }

  /** `f"Tool {tool_name} used by {agent_name or 'unknown'}"`, then
      `f" - Error: {error}"` when the error is non-empty. */
  function ToolMessage(toolName: string, agentName: Option<string>, error: Option<string>): string {
    var agent := if TruthyStr(agentName) then agentName.value else "unknown";
    var head := "Tool " + toolName + " used by " + agent;
    if TruthyStr(error) then head + " - Error: " + error.value else head
  }

  /** The tool message names the agent, or "unknown" for a missing or empty
      one, and carries the error after its fixed part exactly when there is
      one. */
  lemma ToolMessageParts(toolName: string, agentName: Option<string>, error: Option<string>)
    ensures var agent := if TruthyStr(agentName) then agentName.value else "unknown";
      var head := "Tool " + toolName + " used by " + agent;
      var m := ToolMessage(toolName, agentName, error);
      && head <= m
      && (TruthyStr(error) <==> |m| > |head|)
      && (TruthyStr(error) ==> m[|head|..] == " - Error: " + error.value)
    ensures ToolLevel(false) == ERROR && ToolLevel(true) == INFO
  {
  }

  /** `getattr(logging, severity.upper(), logging.INFO)` as `Logger.log`
      receives it: a level name (in any case) gives its level, an unknown
      name gives INFO, and the two upper-case attributes of the module that
      are not levels make `Logger.log` raise TypeError. */
  function SecurityLevel(severity: string): Result<int> {
    var name := ToUpper(severity);
    match LevelByName(name)
    case Some(level) => Ok(level)
    case None => if IsNonLevelAttribute(name) then Err(TypeError) else Ok(INFO)
  }

  /** The name of every standard level, in upper or lower case, selects that
      level; the default severity "INFO" selects INFO. */
  lemma SecurityLevelOfName(level: int)
    requires IsStandardLevel(level)
    ensures SecurityLevel(GetLevelName(level)) == Ok(level)
    ensures SecurityLevel(ToLower(GetLevelName(level))) == Ok(level)
  {
    LevelNameRoundTrip(level);
    var name := GetLevelName(level);
    assert ToUpper(name) == name;
    assert ToUpper(ToLower(name)) == name;
  }

  /** The severity's case does not matter: it, its lower-case and its
      upper-case form select the same level or raise the same error. */
  lemma SecurityLevelIgnoresCase(severity: string)
    ensures SecurityLevel(ToLower(severity)) == SecurityLevel(severity)
    ensures SecurityLevel(ToUpper(severity)) == SecurityLevel(severity)
  {
    CaseIgnored(severity);
    UpperIdempotent(severity);
  }

  /** A severity naming no attribute of the module falls back to INFO. */
  lemma SecurityLevelFallback(severity: string)
    requires LevelByName(ToUpper(severity)).None? && !IsNonLevelAttribute(ToUpper(severity))
    ensures SecurityLevel(severity) == Ok(INFO)
  {
  }

  /** `log_security_event(..., severity="_styles")` raises. */
  lemma SecurityLevelRaises()
    ensures SecurityLevel("_styles") == Err(TypeError)
    ensures SecurityLevel("basic_format") == Err(TypeError)
  {
    assert ToUpper("_styles") == "_STYLES";
    assert ToUpper("basic_format") == "BASIC_FORMAT";
  }

  // ---------------------------------------------------------------------
  // Records handed to the channel loggers

  /** What a channel logger was given: a finished record for
      `Logger.handle`, or a level, message and extra fields for `Logger.log`. */
  datatype Emission =
    | Handled(channel: Channel, record: LogRecord)
    | Logged(channel: Channel, level: int, msg: string, extra: map<string, Value>)

  /** `logging.LogRecord(name=..., level=..., pathname="", lineno=0, msg=...,
      args=(), exc_info=None)` with the given attributes set on it: no
      source location, no function, no exception. */
  function BareRecord(channel: Channel, level: int, msg: string, now: LocalTime, attrs: map<string, Value>): (r: LogRecord)
    ensures r.name == channel.LoggerName() && r.levelno == level && r.message == msg
    ensures r.created == now && r.attrs == attrs && r.excText.None?
  {
    LogRecord(channel.LoggerName(), level, "", "", None, 0, msg, now, None, attrs)
  }

  function InteractionRecord(sessionId: string, event: InteractionEvent, now: LocalTime): LogRecord {
    BareRecord(Interactions, INFO, "", now, map[
      "session_id" := VStr(sessionId),
      "interaction_type" := VStr(event.eventType),
      "interaction_data" := VMap(event.AsDict()),
      "duration" := OptReal(event.durationMs),
      "agent_name" := OptStr(event.agentName)])
  }

  function AgentMessage(agentName: string, activityType: string): string {
    "Agent " + agentName + " performed " + activityType
  }

  function AgentRecord(sessionId: string, activity: AgentActivity, now: LocalTime): LogRecord {
    BareRecord(Agents, INFO, AgentMessage(activity.agentName, activity.activityType), now, map[
      "session_id" := VStr(sessionId),
      "agent_name" := VStr(activity.agentName),
      "action" := VStr(activity.activityType),
      "agent_data" := VMap(activity.AsDict()),
      "llm_model" := OptStr(activity.llmModel),
      "tokens_used" := OptInt(TotalTokens(activity.promptTokens, activity.completionTokens))])
  }

  function ToolRecord(sessionId: string, usage: ToolUsage, now: LocalTime): LogRecord {
    BareRecord(Tools, ToolLevel(usage.success), ToolMessage(usage.toolName, usage.agentName, usage.error), now, map[
      "session_id" := VStr(sessionId),
      "tool_name" := VStr(usage.toolName),
      "agent_name" := OptStr(usage.agentName),
      "tool_data" := VMap(usage.AsDict())])
  }

  /** A metric value and the text the f-string prints for it. A float's
      `repr` is not modelled and comes with the value. */
  datatype Metric = IntMetric(i: int) | FloatMetric(r: real, repr: string) {
    function AsValue(): Value {
      match this
      case IntMetric(i) => VInt(i)
      case FloatMetric(r, _) => VReal(r)
    }

    function Text(): string {
      match this
      case IntMetric(i) => IntToString(i)
      case FloatMetric(_, text) => text
    }
  }

  function PerformanceEmission(sessionId: string, metricName: string, value: Metric, unit: string,
                               metadata: Option<map<string, Value>>): Emission {
    Logged(Performance, INFO, "Performance metric " + metricName + ": " + value.Text() + unit, map[
      "session_id" := VStr(sessionId),
      "metric_name" := VStr(metricName),
      "value" := value.AsValue(),
      "unit" := VStr(unit),
      "metadata" := VMap(OrEmpty(metadata))])
  }

  // ---------------------------------------------------------------------
  // End to end: what the formatters make of the records

  lemma InteractionDictFields(event: InteractionEvent)
    ensures var d := event.AsDict();
      && "timestamp" in d && d["timestamp"] == VStr(event.timestamp)
      && "session_id" in d && d["session_id"] == VStr(event.sessionId)
      && "event_id" in d && d["event_id"] == VStr(event.eventId)
  {
  }

  lemma InteractionDictLacks(event: InteractionEvent)
    ensures var d := event.AsDict();
      "user_id" !in d && "interaction_type" !in d && "agent" !in d
  {
  }

  lemma InteractionRecordAttrs(sessionId: string, event: InteractionEvent, now: LocalTime)
    ensures var a := InteractionRecord(sessionId, event, now).attrs;
      && "interaction_data" in a && a["interaction_data"] == VMap(event.AsDict())
      && "duration" in a && a["duration"] == OptReal(event.durationMs)
      && "agent_name" in a && a["agent_name"] == OptStr(event.agentName)
      && "interaction_type" in a && a["interaction_type"] == VStr(event.eventType)
      && "user_id" !in a
  {
  }

  /** The interactions channel writes the event as it was built: the
      event's ISO timestamp replaces the plain one of the record, and the
      session and event ids are the event's. */
  lemma InteractionOutputEvent(sessionId: string, event: InteractionEvent, now: LocalTime)
    ensures var out := InteractionSpec(InteractionRecord(sessionId, event, now));
      && out.Done?
      && "timestamp" in out.value && out.value["timestamp"] == VStr(event.timestamp)
      && "session_id" in out.value && out.value["session_id"] == VStr(event.sessionId)
      && "event_id" in out.value && out.value["event_id"] == VStr(event.eventId)
  {
    var r := InteractionRecord(sessionId, event, now);
    var d := event.AsDict();
    InteractionRecordAttrs(sessionId, event, now);
    InteractionDictFields(event);
    assert "timestamp" !in InteractionOptionalKeys && "session_id" !in InteractionOptionalKeys;
    assert "event_id" !in InteractionOptionalKeys;
    InteractionDataKey(r, "timestamp");
    InteractionDataKey(r, "session_id");
    InteractionDataKey(r, "event_id");
  }

  /** The interaction type is the call's event type, the user is
      "anonymous" (the record never sets one), and the agent and duration
      come from the call, even when they are None. */
  lemma InteractionOutputCall(sessionId: string, event: InteractionEvent, now: LocalTime)
    ensures var out := InteractionSpec(InteractionRecord(sessionId, event, now));
      && out.Done?
      && "interaction_type" in out.value && out.value["interaction_type"] == VStr(event.eventType)
      && "user_id" in out.value && out.value["user_id"] == VStr("anonymous")
      && "agent" in out.value && out.value["agent"] == OptStr(event.agentName)
      && "duration_ms" in out.value && out.value["duration_ms"] == OptReal(event.durationMs)
  {
    var r := InteractionRecord(sessionId, event, now);
    var d := event.AsDict();
    InteractionRecordAttrs(sessionId, event, now);
    InteractionDictLacks(event);
    InteractionHeadDefaults(r);
    assert "interaction_type" !in InteractionOptionalKeys && "user_id" !in InteractionOptionalKeys;
    InteractionHeadKey(r, "interaction_type");
    InteractionHeadKey(r, "user_id");
    InteractionDataWins(r);
    InteractionOptional(InteractionHead(r) + d, r);
  }

  lemma AgentDictFields(a: AgentActivity)
    ensures var d := a.AsDict();
      && "timestamp" in d && d["timestamp"] == VStr(a.timestamp)
      && "session_id" in d && d["session_id"] == VStr(a.sessionId)
      && "event_id" in d && d["event_id"] == VStr(a.eventId)
      && "total_tokens" in d && d["total_tokens"] == OptInt(a.totalTokens)
  {
  }

  lemma AgentDictLacks(a: AgentActivity)
    ensures "agent" !in a.AsDict() && "action" !in a.AsDict()
  {
  }

  lemma AgentRecordAttrs(sessionId: string, a: AgentActivity, now: LocalTime)
    ensures var attrs := AgentRecord(sessionId, a, now).attrs;
      && "agent_data" in attrs && attrs["agent_data"] == VMap(a.AsDict())
      && "agent_name" in attrs && attrs["agent_name"] == VStr(a.agentName)
      && "action" in attrs && attrs["action"] == VStr(a.activityType)
      && "llm_model" in attrs && attrs["llm_model"] == OptStr(a.llmModel)
      && "tokens_used" in attrs && attrs["tokens_used"] == OptInt(TotalTokens(a.promptTokens, a.completionTokens))
  {
  }

  /** `AgentFormatter`, given an agent record, writes the activity with its
      event id, session and ISO timestamp, and its total under
      `total_tokens`. (Setup gives the agents channel the structured
      formatter; see AgentChannelMessage.) */
  lemma AgentOutputEvent(sessionId: string, a: AgentActivity, now: LocalTime)
    ensures var out := AgentSpec(AgentRecord(sessionId, a, now));
      && out.Done?
      && "timestamp" in out.value && out.value["timestamp"] == VStr(a.timestamp)
      && "session_id" in out.value && out.value["session_id"] == VStr(a.sessionId)
      && "event_id" in out.value && out.value["event_id"] == VStr(a.eventId)
      && "total_tokens" in out.value && out.value["total_tokens"] == OptInt(a.totalTokens)
  {
    var r := AgentRecord(sessionId, a, now);
    AgentRecordAttrs(sessionId, a, now);
    AgentDictFields(a);
    AgentDictLacks(a);
    assert "timestamp" !in AgentOptionalKeys && "session_id" !in AgentOptionalKeys;
    assert "event_id" !in AgentOptionalKeys && "total_tokens" !in AgentOptionalKeys;
    AgentDataKey(r, "timestamp");
    AgentDataKey(r, "session_id");
    AgentDataKey(r, "event_id");
    AgentDataKey(r, "total_tokens");
  }

  /** In `AgentFormatter`'s output for an agent record the agent and action
      are the call's, the model name is written even when None, and
      `tokens_used` is the token rule's total. */
  lemma AgentOutputCall(sessionId: string, a: AgentActivity, now: LocalTime)
    ensures var out := AgentSpec(AgentRecord(sessionId, a, now));
      && out.Done?
      && "agent" in out.value && out.value["agent"] == VStr(a.agentName)
      && "action" in out.value && out.value["action"] == VStr(a.activityType)
      && "llm_model" in out.value && out.value["llm_model"] == OptStr(a.llmModel)
      && "tokens_used" in out.value && out.value["tokens_used"] == OptInt(TotalTokens(a.promptTokens, a.completionTokens))
  {
    var r := AgentRecord(sessionId, a, now);
    AgentRecordAttrs(sessionId, a, now);
    AgentDictFields(a);
    AgentDictLacks(a);
    AgentHeadDefaults(r);
    assert "agent" !in AgentOptionalKeys && "action" !in AgentOptionalKeys;
    AgentHeadKey(r, "agent");
    AgentHeadKey(r, "action");
    AgentOptional(AgentHead(r) + a.AsDict(), r);
  }

  lemma AgentsLoggerName()
    ensures Agents.LoggerName() == "deer_flow.agents"
  {
  }

  lemma AgentRecordKeys(sessionId: string, a: AgentActivity, now: LocalTime)
    ensures AgentRecord(sessionId, a, now).attrs.Keys ==
      {"session_id", "agent_name", "action", "agent_data", "llm_model", "tokens_used"}
  {
  }

  /** The agents channel, a structured formatter, writes the activity's
      message under the agents logger's name. */
  lemma AgentChannelMessage(sessionId: string, a: AgentActivity, now: LocalTime)
    ensures var out := StructuredSpec(AgentRecord(sessionId, a, now));
      && "message" in out && out["message"] == VStr(AgentMessage(a.agentName, a.activityType))
      && "logger" in out && out["logger"] == VStr("deer_flow.agents")
  {
    var r := AgentRecord(sessionId, a, now);
    AgentRecordKeys(sessionId, a, now);
    AgentsLoggerName();
    assert "message" !in r.attrs;
    assert "logger" !in r.attrs;
    StructuredField(r, "message");
    StructuredField(r, "logger");
  }

  /** It copies the logger's session, the whole activity under `agent_data`
      and the token total under `tokens_used`. */
  lemma AgentChannelData(sessionId: string, a: AgentActivity, now: LocalTime)
    ensures var out := StructuredSpec(AgentRecord(sessionId, a, now));
      && "session_id" in out && out["session_id"] == VStr(sessionId)
      && "agent_data" in out && out["agent_data"] == VMap(a.AsDict())
      && "tokens_used" in out && out["tokens_used"] == OptInt(TotalTokens(a.promptTokens, a.completionTokens))
  {
    var r := AgentRecord(sessionId, a, now);
    AgentRecordAttrs(sessionId, a, now);
    assert "session_id" !in Reserved && "agent_data" !in Reserved && "tokens_used" !in Reserved;
    StructuredCopy(r, "session_id");
    StructuredCopy(r, "agent_data");
    StructuredCopy(r, "tokens_used");
  }

  lemma ToolRecordAttrs(sessionId: string, u: ToolUsage, now: LocalTime)
    ensures var attrs := ToolRecord(sessionId, u, now).attrs;
      && attrs.Keys == {"session_id", "tool_name", "agent_name", "tool_data"}
      && attrs["session_id"] == VStr(sessionId) && attrs["tool_data"] == VMap(u.AsDict())
  {
  }

  lemma ToolsLoggerName()
    ensures Tools.LoggerName() == "deer_flow.tools"
  {
  }

  lemma ToolLevelName(success: bool)
    ensures GetLevelName(ToolLevel(success)) == if success then "INFO" else "ERROR"
  {
  }

  /** The tools channel (a structured formatter) writes ERROR for a failed
      call and INFO otherwise, and the message of the call under the tools
      logger's name. */
  lemma ToolOutputLevel(sessionId: string, u: ToolUsage, now: LocalTime)
    ensures var out := StructuredSpec(ToolRecord(sessionId, u, now));
      "level" in out && out["level"] == VStr(if u.success then "INFO" else "ERROR")
  {
    var r := ToolRecord(sessionId, u, now);
    ToolRecordAttrs(sessionId, u, now);
    ToolLevelName(u.success);
    assert "level" !in r.attrs;
    StructuredField(r, "level");
  }

  lemma ToolOutputMessage(sessionId: string, u: ToolUsage, now: LocalTime)
    ensures var out := StructuredSpec(ToolRecord(sessionId, u, now));
      && "message" in out && out["message"] == VStr(ToolMessage(u.toolName, u.agentName, u.error))
      && "logger" in out && out["logger"] == VStr("deer_flow.tools")
  {
    var r := ToolRecord(sessionId, u, now);
    ToolRecordAttrs(sessionId, u, now);
    ToolsLoggerName();
    assert "message" !in r.attrs && "logger" !in r.attrs;
    StructuredField(r, "message");
    StructuredField(r, "logger");
  }

  /** It also writes the logger's session and the whole usage record under
      `tool_data`. */
  lemma ToolOutputData(sessionId: string, u: ToolUsage, now: LocalTime)
    ensures var out := StructuredSpec(ToolRecord(sessionId, u, now));
      && "session_id" in out && out["session_id"] == VStr(sessionId)
      && "tool_data" in out && out["tool_data"] == VMap(u.AsDict())
  {
    var r := ToolRecord(sessionId, u, now);
    ToolRecordAttrs(sessionId, u, now);
    assert "session_id" !in Reserved;
    assert "tool_data" !in Reserved;
    StructuredCopy(r, "session_id");
    StructuredCopy(r, "tool_data");
  }

  // ---------------------------------------------------------------------
  // Identifiers, the shared log and the logger

  /** The n-th identifier the id source hands out. */
  function IdText(n: nat): (id: string)
    ensures |id| > 0
  {
    "id-" + NatToString(n)
  }

  /** No two identifiers handed out are alike. */
  lemma IdTextInjective(a: nat, b: nat)
    ensures IdText(a) == IdText(b) ==> a == b
  {
    if IdText(a) == IdText(b) {
      assert IdText(a)[3..] == NatToString(a);
      assert IdText(b)[3..] == NatToString(b);
      NatToStringInjective(a, b);
    }
  }

  /** The generator `uuid.uuid4()` draws from, as a counter. */
  class IdSource {
    var next: nat

    constructor ()
      ensures next == 0
    {
      next := 0;
    }

    method Fresh() returns (id: string)
      modifies this
      ensures id == IdText(old(next)) && next == old(next) + 1
    {
      id := IdText(next);
      next := next + 1;
    }
  }

  /** Everything the channel loggers were given, in order. */
  class ChannelLog {
    var emitted: seq<Emission>

    constructor ()
      ensures emitted == []
    {
      emitted := [];
    }

    method Emit(e: Emission)
      modifies this
      ensures emitted == old(emitted) + [e]
    {
      emitted := emitted + [e];
    }
  }

  function SecurityEmission(sessionId: string, level: int, eventType: string, description: string,
                            userId: Option<string>, ipAddress: Option<string>,
                            metadata: Option<map<string, Value>>): Emission {
    Logged(Security, level, "Security event " + eventType + ": " + description, map[
      "session_id" := VStr(sessionId),
      "event_type" := VStr(eventType),
      "user_id" := OptStr(userId),
      "ip_address" := OptStr(ipAddress),
      "metadata" := VMap(OrEmpty(metadata))])
  }

  function WorkflowEmission(sessionId: string, event: WorkflowEvent): Emission {
    Logged(Workflows, WorkflowLevel(event.status),
      WorkflowMessage(event.workflowType, event.nodeName, event.status, event.error),
      map["session_id" := VStr(sessionId), "workflow_event" := VMap(event.AsDict())])
  }

  /** How the body of `with logger.timing(...)` or of a decorated function
      ended: with a value, or with an exception; `ordinary` tells an
      `Exception` from the other `BaseException`s (KeyboardInterrupt,
      SystemExit, GeneratorExit). */
  datatype CallOutcome = Returned(value: Value) | Raised(ordinary: bool, text: string)

  class InteractionLogger {
    const sessionId: string
    const ids: IdSource
    const log: ChannelLog

    /** `__init__`: the given session id when it is non-empty, a fresh id
        otherwise. */
    constructor (sessionId: Option<string>, ids: IdSource, log: ChannelLog)
      modifies ids
      ensures this.ids == ids && this.log == log
      ensures TruthyStr(sessionId) ==> this.sessionId == sessionId.value && ids.next == old(ids.next)
      ensures !TruthyStr(sessionId) ==> this.sessionId == IdText(old(ids.next)) && ids.next == old(ids.next) + 1
    {
      var sid: string;
      if TruthyStr(sessionId) {
        sid := sessionId.value;
      } else {
        sid := ids.Fresh();
      }
      this.sessionId := sid;
      this.ids := ids;
      this.log := log;
    }

    /** `log_interaction`: a fresh event id, the event stamped with this
        session and the clock reading `now`, handed as a record to the
        interactions logger; the event id is returned. The record is made
        after the event, so its creation time is a second reading, `created`. */
    method LogInteraction(eventType: string, userInput: Option<string>, agentResponse: Option<string>,
                          agentName: Option<string>, durationMs: Option<real>,
                          metadata: Option<map<string, Value>>, error: Option<string>, now: LocalTime,
                          created: LocalTime)
      returns (eventId: string)
      modifies ids, log
      ensures eventId == IdText(old(ids.next)) && ids.next == old(ids.next) + 1
      ensures log.emitted == old(log.emitted) + [Handled(Interactions, InteractionRecord(sessionId,
        InteractionEvent(eventId, sessionId, IsoFormat(now), eventType, userInput, agentResponse, agentName,
          None, None, None, durationMs, Some(OrEmpty(metadata)), error), created))]
    {
      eventId := ids.Fresh();
      var event := InteractionEvent(eventId, sessionId, IsoFormat(now), eventType, userInput, agentResponse,
        agentName, None, None, None, durationMs, Some(OrEmpty(metadata)), error);
      log.Emit(Handled(Interactions, InteractionRecord(sessionId, event, created)));
    }

    /** `log_agent_activity`: the activity carries the token total of the
        token rule, and so does the record's `tokens_used`. */
    method LogAgentActivity(agentName: string, activityType: string, llmModel: Option<string>,
                            promptTokens: Option<int>, completionTokens: Option<int>, durationMs: Option<real>,
                            inputData: Option<string>, outputData: Option<string>,
                            metadata: Option<map<string, Value>>, now: LocalTime, created: LocalTime)
      returns (eventId: string)
      modifies ids, log
      ensures eventId == IdText(old(ids.next)) && ids.next == old(ids.next) + 1
      ensures log.emitted == old(log.emitted) + [Handled(Agents, AgentRecord(sessionId,
        AgentActivity(eventId, sessionId, IsoFormat(now), agentName, activityType, llmModel, promptTokens,
          completionTokens, TotalTokens(promptTokens, completionTokens), durationMs, inputData, outputData,
          Some(OrEmpty(metadata))), created))]
    {
      eventId := ids.Fresh();
      var activity := AgentActivity(eventId, sessionId, IsoFormat(now), agentName, activityType, llmModel,
        promptTokens, completionTokens, TotalTokens(promptTokens, completionTokens), durationMs, inputData,
        outputData, Some(OrEmpty(metadata)));
      log.Emit(Handled(Agents, AgentRecord(sessionId, activity, created)));
    }

    /** `log_workflow_event`: `Logger.log` at ERROR for status "error" and
        INFO otherwise, with the event under `workflow_event`. */
    method LogWorkflowEvent(workflowType: string, nodeName: string, status: string,
                            inputData: Option<map<string, Value>>, outputData: Option<map<string, Value>>,
                            durationMs: Option<real>, error: Option<string>, now: LocalTime)
      returns (eventId: string)
      modifies ids, log
      ensures eventId == IdText(old(ids.next)) && ids.next == old(ids.next) + 1
      ensures log.emitted == old(log.emitted) + [WorkflowEmission(sessionId,
        WorkflowEvent(eventId, sessionId, IsoFormat(now), workflowType, nodeName, status, inputData, outputData,
          durationMs, error))]
    {
      eventId := ids.Fresh();
      var event := WorkflowEvent(eventId, sessionId, IsoFormat(now), workflowType, nodeName, status, inputData,
        outputData, durationMs, error);
      log.Emit(WorkflowEmission(sessionId, event));
    }

    /** `log_tool_usage`: a record at ERROR for a failed call and INFO
        otherwise, handed to the tools logger. */
    method LogToolUsage(toolName: string, inputParameters: Option<map<string, Value>>, outputResult: Option<string>,
                        agentName: Option<string>, durationMs: Option<real>, success: bool, error: Option<string>,
                        now: LocalTime, created: LocalTime)
      returns (eventId: string)
      modifies ids, log
      ensures eventId == IdText(old(ids.next)) && ids.next == old(ids.next) + 1
      ensures log.emitted == old(log.emitted) + [Handled(Tools, ToolRecord(sessionId,
        ToolUsage(eventId, sessionId, IsoFormat(now), toolName, agentName, inputParameters, outputResult,
          durationMs, success, error), created))]
    {
      eventId := ids.Fresh();
      var usage := ToolUsage(eventId, sessionId, IsoFormat(now), toolName, agentName, inputParameters,
        outputResult, durationMs, success, error);
      log.Emit(Handled(Tools, ToolRecord(sessionId, usage, created)));
    }

    /** `log_performance_metric`: one INFO message on the performance logger. */
    method LogPerformanceMetric(metricName: string, value: Metric, unit: string, metadata: Option<map<string, Value>>)
      modifies log
      ensures log.emitted == old(log.emitted) + [PerformanceEmission(sessionId, metricName, value, unit, metadata)]
    {
      log.Emit(PerformanceEmission(sessionId, metricName, value, unit, metadata));
    }

    /** `log_security_event`: the level the severity names; when the
        severity names a non-level attribute `Logger.log` raises and nothing
        is logged. */
    method LogSecurityEvent(eventType: string, description: string, severity: string, userId: Option<string>,
                            ipAddress: Option<string>, metadata: Option<map<string, Value>>)
      returns (raised: Option<PyError>)
      modifies log
      ensures SecurityLevel(severity).Err? ==>
        raised == Some(SecurityLevel(severity).error) && log.emitted == old(log.emitted)
      ensures SecurityLevel(severity).Ok? ==>
        (raised == None && log.emitted == old(log.emitted) + [SecurityEmission(sessionId,
          SecurityLevel(severity).value, eventType, description, userId, ipAddress, metadata)])
    {
      match SecurityLevel(severity)
      case Ok(level) =>
        log.Emit(SecurityEmission(sessionId, level, eventType, description, userId, ipAddress, metadata));
        raised := None;
      case Err(e) =>
        raised := Some(e);
    }

    /** `with timing(name): body`: however the body ends, exactly one
        metric named after the operation, in milliseconds, is logged, and
        the body's outcome (value or exception) is passed on unchanged. The
        float text of the duration comes with the clock readings. */
    method Timing(operationName: string, body: CallOutcome, startTime: real, endTime: real, durationText: string)
      returns (outcome: CallOutcome)
      modifies log
      ensures outcome == body
      ensures log.emitted == old(log.emitted) + [PerformanceEmission(sessionId, operationName,
        FloatMetric((endTime - startTime) * 1000.0, durationText), "ms", None)]
    {
      outcome := body;
      var duration := (endTime - startTime) * 1000.0;
      LogPerformanceMetric(operationName, FloatMetric(duration, durationText), "ms", None);
    }
  }

  /** A timing metric names its operation, says "ms" and is an INFO message
      of the performance logger. */
  lemma TimingMetricShape(sessionId: string, operationName: string, duration: real, text: string)
    ensures var e := PerformanceEmission(sessionId, operationName, FloatMetric(duration, text), "ms", None);
      && e.Logged? && e.channel == Performance && e.level == INFO
      && e.msg == "Performance metric " + operationName + ": " + text + "ms"
      && "metric_name" in e.extra && e.extra["metric_name"] == VStr(operationName)
      && "unit" in e.extra && e.extra["unit"] == VStr("ms")
  {
  }

  // ---------------------------------------------------------------------
  // The module-level logger and what is built on it

  /** `list(kwargs.keys())` as a JSON-able list. */
  function KeyList(keys: seq<string>): (v: Value)
    ensures v.VList? && |v.items| == |keys|
    ensures forall i :: 0 <= i < |keys| ==> v.items[i] == VStr(keys[i])
  {
    VList(seq(|keys|, i requires 0 <= i < |keys| => VStr(keys[i])))
  }

  /** The metadata `logged_interaction` attaches to both of its events. */
  function CallMetadata(functionName: string, argsCount: nat, kwargsKeys: seq<string>): map<string, Value> {
    map["function" := VStr(functionName), "args_count" := VInt(argsCount), "kwargs_keys" := KeyList(kwargsKeys)]
  }

  /** The metadata `logged_agent_activity` attaches: success, or the error text. */
  function ActivityMetadata(functionName: string, call: CallOutcome): map<string, Value> {
    if call.Returned? then map["function" := VStr(functionName), "success" := VBool(true)]
    else map["function" := VStr(functionName), "error" := VStr(call.text), "success" := VBool(false)]
  }

  /** Whether `get_interaction_logger(sessionId)` builds a new logger: when
      there is none yet, or when a non-empty session id differs from the
      current one. */
  predicate Replaces(currentId: Option<string>, sessionId: Option<string>) {
    currentId.None? || (TruthyStr(sessionId) && currentId.value != sessionId.value)
  }

  /** Once `get_interaction_logger` called with a non-empty id has run, the
      current logger has that id; calling again with the same id or with none
      keeps it. */
  lemma ReplacesKeeps(id: string, sessionId: Option<string>)
    ensures TruthyStr(sessionId) && sessionId.value == id ==> !Replaces(Some(id), sessionId)
    ensures !TruthyStr(sessionId) ==> !Replaces(Some(id), sessionId)
    ensures TruthyStr(sessionId) && sessionId.value != id ==> Replaces(Some(id), sessionId)
  {
  }

  /** The `_global_logger` slot of the module, with the id source and the log
      every logger it holds shares. */
  class GlobalSlot {
    var current: InteractionLogger?
    const ids: IdSource
    const log: ChannelLog

    predicate Valid()
      reads this
    {
      current != null ==> current.ids == ids && current.log == log
    }

    function CurrentId(): Option<string>
      reads this
    {
      if current == null then None else Some(current.sessionId)
    }

    constructor (ids: IdSource, log: ChannelLog)
      ensures Valid() && current == null && this.ids == ids && this.log == log
    {
      current := null;
      this.ids := ids;
      this.log := log;
    }

    /** `get_interaction_logger`: the current logger, unless `Replaces` calls
        for a new one, which then becomes current. */
    method GetInteractionLogger(sessionId: Option<string>) returns (logger: InteractionLogger)
      requires Valid()
      modifies this, ids
      ensures Valid() && current == logger && logger.ids == ids && logger.log == log
      ensures !Replaces(old(CurrentId()), sessionId) ==> logger == old(current) && ids.next == old(ids.next)
      ensures Replaces(old(CurrentId()), sessionId) ==> fresh(logger)
      ensures Replaces(old(CurrentId()), sessionId) && TruthyStr(sessionId) ==>
        (logger.sessionId == sessionId.value && ids.next == old(ids.next))
      ensures Replaces(old(CurrentId()), sessionId) && !TruthyStr(sessionId) ==>
        (logger.sessionId == IdText(old(ids.next)) && ids.next == old(ids.next) + 1)
      ensures TruthyStr(sessionId) ==> logger.sessionId == sessionId.value
      ensures log.emitted == old(log.emitted)
    {
      if current == null || (TruthyStr(sessionId) && current.sessionId != sessionId.value) {
        current := new InteractionLogger(sessionId, ids, log);
      }
      logger := current;
    }

    /** The module-level `log_interaction`: through the logger
        `get_interaction_logger(sessionId)` leaves current. */
    method LogInteraction(eventType: string, userInput: Option<string>, agentResponse: Option<string>,
                          agentName: Option<string>, durationMs: Option<real>,
                          metadata: Option<map<string, Value>>, error: Option<string>,
                          sessionId: Option<string>, now: LocalTime, created: LocalTime)
      returns (eventId: string)
      requires Valid()
      modifies this, ids, log
      ensures Valid() && current != null
      ensures TruthyStr(sessionId) ==> current.sessionId == sessionId.value
      ensures !Replaces(old(CurrentId()), sessionId) ==> current == old(current) && ids.next == old(ids.next) + 1
      ensures Replaces(old(CurrentId()), sessionId) ==>
        (fresh(current) && SessionOf(current, sessionId, old(ids.next))
         && ids.next == old(ids.next) + (if TruthyStr(sessionId) then 1 else 2))
      ensures eventId == IdText(ids.next - 1)
      ensures log.emitted == old(log.emitted) + [Handled(Interactions, InteractionRecord(current.sessionId,
        InteractionEvent(eventId, current.sessionId, IsoFormat(now), eventType, userInput, agentResponse, agentName,
          None, None, None, durationMs, Some(OrEmpty(metadata)), error), created))]
    {
      var logger := GetInteractionLogger(sessionId);
      eventId := logger.LogInteraction(eventType, userInput, agentResponse, agentName, durationMs, metadata, error,
        now, created);
    }

    /** The module-level `log_agent_activity`. */
    method LogAgentActivity(agentName: string, activityType: string, llmModel: Option<string>,
                            promptTokens: Option<int>, completionTokens: Option<int>, durationMs: Option<real>,
                            inputData: Option<string>, outputData: Option<string>,
                            metadata: Option<map<string, Value>>, sessionId: Option<string>, now: LocalTime,
                            created: LocalTime)
      returns (eventId: string)
      requires Valid()
      modifies this, ids, log
      ensures Valid() && current != null
      ensures TruthyStr(sessionId) ==> current.sessionId == sessionId.value
      ensures !Replaces(old(CurrentId()), sessionId) ==> current == old(current) && ids.next == old(ids.next) + 1
      ensures Replaces(old(CurrentId()), sessionId) ==>
        (fresh(current) && SessionOf(current, sessionId, old(ids.next))
         && ids.next == old(ids.next) + (if TruthyStr(sessionId) then 1 else 2))
      ensures eventId == IdText(ids.next - 1)
      ensures log.emitted == old(log.emitted) + [Handled(Agents, AgentRecord(current.sessionId,
        AgentActivity(eventId, current.sessionId, IsoFormat(now), agentName, activityType, llmModel, promptTokens,
          completionTokens, TotalTokens(promptTokens, completionTokens), durationMs, inputData, outputData,
          Some(OrEmpty(metadata))), created))]
    {
      var logger := GetInteractionLogger(sessionId);
      eventId := logger.LogAgentActivity(agentName, activityType, llmModel, promptTokens, completionTokens,
        durationMs, inputData, outputData, metadata, now, created);
    }

    /** The module-level `log_workflow_event`. */
    method LogWorkflowEvent(workflowType: string, nodeName: string, status: string,
                            inputData: Option<map<string, Value>>, outputData: Option<map<string, Value>>,
                            durationMs: Option<real>, error: Option<string>, sessionId: Option<string>,
                            now: LocalTime)
      returns (eventId: string)
      requires Valid()
      modifies this, ids, log
      ensures Valid() && current != null
      ensures TruthyStr(sessionId) ==> current.sessionId == sessionId.value
      ensures !Replaces(old(CurrentId()), sessionId) ==> current == old(current) && ids.next == old(ids.next) + 1
      ensures Replaces(old(CurrentId()), sessionId) ==>
        (fresh(current) && SessionOf(current, sessionId, old(ids.next))
         && ids.next == old(ids.next) + (if TruthyStr(sessionId) then 1 else 2))
      ensures eventId == IdText(ids.next - 1)
      ensures log.emitted == old(log.emitted) + [WorkflowEmission(current.sessionId,
        WorkflowEvent(eventId, current.sessionId, IsoFormat(now), workflowType, nodeName, status, inputData,
          outputData, durationMs, error))]
    {
      var logger := GetInteractionLogger(sessionId);
      eventId := logger.LogWorkflowEvent(workflowType, nodeName, status, inputData, outputData, durationMs, error, now);
    }

    /** The module-level `log_tool_usage`. */
    method LogToolUsage(toolName: string, inputParameters: Option<map<string, Value>>, outputResult: Option<string>,
                        agentName: Option<string>, durationMs: Option<real>, success: bool, error: Option<string>,
                        sessionId: Option<string>, now: LocalTime, created: LocalTime)
      returns (eventId: string)
      requires Valid()
      modifies this, ids, log
      ensures Valid() && current != null
      ensures TruthyStr(sessionId) ==> current.sessionId == sessionId.value
      ensures !Replaces(old(CurrentId()), sessionId) ==> current == old(current) && ids.next == old(ids.next) + 1
      ensures Replaces(old(CurrentId()), sessionId) ==>
        (fresh(current) && SessionOf(current, sessionId, old(ids.next))
         && ids.next == old(ids.next) + (if TruthyStr(sessionId) then 1 else 2))
      ensures eventId == IdText(ids.next - 1)
      ensures log.emitted == old(log.emitted) + [Handled(Tools, ToolRecord(current.sessionId,
        ToolUsage(eventId, current.sessionId, IsoFormat(now), toolName, agentName, inputParameters, outputResult,
          durationMs, success, error), created))]
    {
      var logger := GetInteractionLogger(sessionId);
      eventId := logger.LogToolUsage(toolName, inputParameters, outputResult, agentName, durationMs, success,
        error, now, created);
    }

    /** A function wrapped by `@logged_interaction`, once the wrapped call has
        ended as `call`: a "function_call" event after a return, a
        "function_error" event with the error text after an `Exception`,
        nothing after any other `BaseException`; the call's outcome is passed
        on unchanged. The wrapper passes no session id, so the event goes
        through the current logger, or through a new one when there is none. */
    method LoggedInteraction(moduleName: string, funcName: string, argsCount: nat, kwargsKeys: seq<string>,
                             call: CallOutcome, durationMs: real, now: LocalTime, created: LocalTime)
      returns (outcome: CallOutcome)
      requires Valid()
      modifies this, ids, log
      ensures outcome == call && Valid()
      ensures !Caught(call) ==>
        (current == old(current) && ids.next == old(ids.next) && log.emitted == old(log.emitted))
      ensures Caught(call) && old(current) != null ==> current == old(current) && ids.next == old(ids.next) + 1
      ensures Caught(call) && old(current) == null ==>
        fresh(current) && current.sessionId == IdText(old(ids.next)) && ids.next == old(ids.next) + 2
      ensures Caught(call) ==> (current != null
        && log.emitted == old(log.emitted) + [Handled(Interactions, InteractionRecord(current.sessionId,
          CallEvent(IdText(ids.next - 1), current.sessionId, now, moduleName + "." + funcName, argsCount,
            kwargsKeys, call, durationMs), created))])
    {
      outcome := call;
      if call.Returned? {
        var functionName := moduleName + "." + funcName;
        var _ := LogInteraction("function_call", None, None, Some(functionName), Some(durationMs),
          Some(CallMetadata(functionName, argsCount, kwargsKeys)), None, None, now, created);
      } else if call.ordinary {
        var functionName := moduleName + "." + funcName;
        var _ := LogInteraction("function_error", None, None, Some(functionName), Some(durationMs),
          Some(CallMetadata(functionName, argsCount, kwargsKeys)), Some(call.text), None, now, created);
      }
    }

    /** A function wrapped by `@logged_agent_activity(agentName, activityType)`:
        one activity after a return, one of type `activityType + "_error"`
        with the error text after an `Exception`, nothing after any other
        `BaseException`; the call's outcome is passed on unchanged. As with
        `@logged_interaction`, no session id is passed. */
    method LoggedAgentActivity(agentName: string, activityType: string, moduleName: string, funcName: string,
                               call: CallOutcome, durationMs: real, now: LocalTime, created: LocalTime)
      returns (outcome: CallOutcome)
      requires Valid()
      modifies this, ids, log
      ensures outcome == call && Valid()
      ensures !Caught(call) ==>
        (current == old(current) && ids.next == old(ids.next) && log.emitted == old(log.emitted))
      ensures Caught(call) && old(current) != null ==> current == old(current) && ids.next == old(ids.next) + 1
      ensures Caught(call) && old(current) == null ==>
        fresh(current) && current.sessionId == IdText(old(ids.next)) && ids.next == old(ids.next) + 2
      ensures Caught(call) ==> (current != null
        && log.emitted == old(log.emitted) + [Handled(Agents, AgentRecord(current.sessionId,
          CallActivity(IdText(ids.next - 1), current.sessionId, now, agentName, activityType,
            moduleName + "." + funcName, call, durationMs), created))])
    {
      outcome := call;
      if call.Returned? || call.ordinary {
        var metadata := ActivityMetadata(moduleName + "." + funcName, call);
        var activity := if call.Returned? then activityType else activityType + "_error";
        var _ := LogAgentActivity(agentName, activity, None, None, None, Some(durationMs), None, None,
          Some(metadata), None, now, created);
        assert TotalTokens(None, None) == None;
      }
    }
  }

  /** The session id of a logger `get_interaction_logger(sessionId)` has
      just created, the id source having stood at `next`: the given id when
      it is non-empty, the next drawn id otherwise. */
  predicate SessionOf(logger: InteractionLogger, sessionId: Option<string>, next: nat) {
    logger.sessionId == if TruthyStr(sessionId) then sessionId.value else IdText(next)
  }

  /** Whether the decorators' `except Exception` catches the outcome: a
      return is logged too, and so is an `Exception`, but no other
      `BaseException`. */
  predicate Caught(call: CallOutcome) {
    call.Returned? || call.ordinary
  }

  /** The event `@logged_interaction` logs for a call. */
  function CallEvent(eventId: string, sessionId: string, now: LocalTime, functionName: string, argsCount: nat,
                     kwargsKeys: seq<string>, call: CallOutcome, durationMs: real): InteractionEvent {
    InteractionEvent(eventId, sessionId, IsoFormat(now),
      if call.Returned? then "function_call" else "function_error", None, None,
      Some(functionName), None, None, None, Some(durationMs),
      Some(CallMetadata(functionName, argsCount, kwargsKeys)),
      if call.Returned? then None else Some(call.text))
  }

  /** The activity `@logged_agent_activity` logs for a call. */
  function CallActivity(eventId: string, sessionId: string, now: LocalTime, agentName: string,
                        activityType: string, functionName: string, call: CallOutcome, durationMs: real)
    : AgentActivity {
    AgentActivity(eventId, sessionId, IsoFormat(now), agentName,
      if call.Returned? then activityType else activityType + "_error", None, None, None, None,
      Some(durationMs), None, None, Some(ActivityMetadata(functionName, call)))
  }

  /** A decorated call's event says which way the call ended: "function_call"
      with no error after a return, "function_error" with the exception's
      text otherwise; both carry the function name as agent and in the
      metadata, with the argument count and keyword names. */
  lemma CallEventShape(eventId: string, sessionId: string, now: LocalTime, functionName: string, argsCount: nat,
                       kwargsKeys: seq<string>, call: CallOutcome, durationMs: real)
    ensures var e := CallEvent(eventId, sessionId, now, functionName, argsCount, kwargsKeys, call, durationMs);
      && (e.eventType == "function_call" <==> call.Returned?)
      && (e.error.Some? <==> call.Raised?)
      && (call.Raised? ==> e.error == Some(call.text))
      && e.agentName == Some(functionName) && e.durationMs == Some(durationMs)
      && e.metadata.Some? && "function" in e.metadata.value && e.metadata.value["function"] == VStr(functionName)
      && "args_count" in e.metadata.value && e.metadata.value["args_count"] == VInt(argsCount)
  {
  }

  /** A decorated call's activity: the configured type after a return, the
      type with "_error" appended otherwise, with `success` saying which. */
  lemma CallActivityShape(eventId: string, sessionId: string, now: LocalTime, agentName: string,
                          activityType: string, functionName: string, call: CallOutcome, durationMs: real)
    ensures var a := CallActivity(eventId, sessionId, now, agentName, activityType, functionName, call, durationMs);
      && a.activityType == (if call.Returned? then activityType else activityType + "_error")
      && a.agentName == agentName && a.totalTokens == None
      && a.metadata.Some? && "success" in a.metadata.value && a.metadata.value["success"] == VBool(call.Returned?)
      && ("error" in a.metadata.value <==> call.Raised?)
  {
  }

  /** The global-logger exchange of the unit tests: asking twice for
      "session-123" gives the same logger, asking for "session-456" then
      gives a different one with that id. */
  method SessionSwitch(slot: GlobalSlot)
    returns (logger1: InteractionLogger, logger2: InteractionLogger, logger3: InteractionLogger)
    requires slot.Valid()
    modifies slot, slot.ids
    ensures logger1 == logger2 && logger1.sessionId == "session-123"
    ensures logger3 != logger1 && logger3.sessionId == "session-456"
  {
    logger1 := slot.GetInteractionLogger(Some("session-123"));
    ReplacesKeeps("session-123", Some("session-123"));
    logger2 := slot.GetInteractionLogger(Some("session-123"));
    ReplacesKeeps("session-123", Some("session-456"));
    logger3 := slot.GetInteractionLogger(Some("session-456"));
  }

  /** A decorated call made after `get_interaction_logger("session-123")`:
      the decorator passes no session id, so its event goes through that
      logger and carries its session id. */
  method DecoratedCallKeepsSession(slot: GlobalSlot, now: LocalTime, created: LocalTime)
    requires slot.Valid()
    modifies slot, slot.ids, slot.log
    ensures slot.current != null && slot.current.sessionId == "session-123" && slot.ids.next > 0
    ensures slot.log.emitted == old(slot.log.emitted) + [Handled(Interactions, InteractionRecord("session-123",
      CallEvent(IdText(slot.ids.next - 1), "session-123", now, "app.run", 0, [], Returned(VNull), 1.0), created))]
  {
    var logger := slot.GetInteractionLogger(Some("session-123"));
    var _ := slot.LoggedInteraction("app", "run", 0, [], Returned(VNull), 1.0, now, created);
    assert "app" + "." + "run" == "app.run";
  }
}
