/** The three formatters of the logging subsystem. Each turns a log record
    into the mapping that is then written out as one JSON document; the
    mapping, not its JSON text, is what is modelled. */
module Formatters {
  import opened Common
  import opened Clock
  import opened Levels

  /** A `logging.LogRecord`: the standard attributes the formatters read,
      and every other instance attribute (the `extra` fields and the
      attributes set on the record after it was made) in `attrs`.
      `message` is what `getMessage()` returns; `excText` is what
      `formatException(exc_info)` returns, present iff `exc_info` is truthy. */
  datatype LogRecord = LogRecord(
    name: string,
    levelno: int,
    pathname: string,
    moduleName: string,
    funcName: Option<string>,
    lineno: int,
    message: string,
    created: LocalTime,
    excText: Option<string>,
    attrs: map<string, Value>)

  /** The attribute names the structured formatter never copies. */
  const Reserved: set<string> := {
    "name", "levelname", "levelno", "pathname", "filename",
    "module", "exc_info", "exc_text", "stack_info", "lineno",
    "funcName", "created", "msecs", "relativeCreated", "thread",
    "threadName", "processName", "process", "getMessage", "msg", "args"}

  /** The keys the structured formatter always writes first. */
  const StructuredKeys: set<string> := {"timestamp", "level", "logger", "message", "module", "function", "line"}

  /** What formatting produced: the mapping, the exception it raised, or a
      case outside the model (a `dict.update` pair whose key is not a
      string, or a two-key dict used as a pair, whose key order the model
      does not keep). */
  datatype Outcome<+T> = Done(value: T) | Raises(error: PyError) | Beyond

  // ---------------------------------------------------------------------
  // The structured formatter

  /** The seven fixed fields, before anything else is added. */
  function StructuredHead(r: LogRecord): map<string, Value> {
    map[
      "timestamp" := VStr(IsoFormat(r.created)),
      "level" := VStr(GetLevelName(r.levelno)),
      "logger" := VStr(r.name),
      "message" := VStr(r.message),
      "module" := VStr(r.moduleName),
      "function" := OptStr(r.funcName),
      "line" := VInt(r.lineno)]
  }

  /** The record's attributes among `keys` that are not reserved. */
  function CustomOf(r: LogRecord, keys: set<string>): map<string, Value> {
    map k | k in r.attrs && k in keys && k !in Reserved :: r.attrs[k]
  }

  /** The record's own attributes that are not reserved. */
  function Custom(r: LogRecord): map<string, Value> {
    CustomOf(r, r.attrs.Keys)
  }

  function WithException(m: map<string, Value>, r: LogRecord): map<string, Value> {
    if r.excText.Some? then m["exception" := VStr(r.excText.value)] else m
  }

  /** The mapping the structured formatter serialises: fixed fields, the
      exception text when there is one, then the custom attributes, which
      win over both. */
  function StructuredSpec(r: LogRecord): map<string, Value> {
    WithException(StructuredHead(r), r) + Custom(r)
  }

  /** Copying one more attribute extends the copied part by that attribute,
      unless it is reserved. */
  lemma CopyOne(base: map<string, Value>, r: LogRecord, done: set<string>, key: string)
    requires key in r.attrs
    ensures base + CustomOf(r, done + {key}) ==
      if key in Reserved then base + CustomOf(r, done) else (base + CustomOf(r, done))[key := r.attrs[key]]
  {
  }

  /** `StructuredFormatter.format` up to the JSON text: build the fixed
      fields, add the exception, then walk the record's attributes in
      whatever order they come and copy each one not reserved. */
  method StructuredFormat(r: LogRecord) returns (out: map<string, Value>)
    ensures out == StructuredSpec(r)
  {
    out := StructuredHead(r);
    if r.excText.Some? {
      out := out["exception" := VStr(r.excText.value)];
    }
    ghost var base := out;
    assert base == WithException(StructuredHead(r), r);
    assert base == base + CustomOf(r, {});
    var rest := r.attrs.Keys;
    while rest != {}
      invariant rest <= r.attrs.Keys
      invariant out == base + CustomOf(r, r.attrs.Keys - rest)
      decreases rest
    {
      var key :| key in rest;
      CopyOne(base, r, r.attrs.Keys - rest, key);
      assert r.attrs.Keys - (rest - {key}) == (r.attrs.Keys - rest) + {key};
      if key !in Reserved {
        out := out[key := r.attrs[key]];
      }
      rest := rest - {key};
    }
    assert r.attrs.Keys - rest == r.attrs.Keys;
  }

  lemma HeadKeys(r: LogRecord)
    ensures StructuredHead(r).Keys == StructuredKeys
    ensures WithException(StructuredHead(r), r).Keys == StructuredKeys + (if r.excText.Some? then {"exception"} else {})
  {
  }

  /** The seven fixed keys are always there. */
  lemma StructuredKeysPresent(r: LogRecord)
    ensures StructuredKeys <= StructuredSpec(r).Keys
  {
    HeadKeys(r);
  }

  /** A fixed key holds the record's own value unless a custom attribute of
      that name replaced it. */
  lemma StructuredField(r: LogRecord, k: string)
    requires k in StructuredKeys
    ensures k in StructuredSpec(r)
    ensures StructuredSpec(r)[k] == if k in r.attrs && k !in Reserved then r.attrs[k] else StructuredHead(r)[k]
  {
    HeadKeys(r);
    assert k != "exception";
  }

  /** `module` is reserved, so it always holds the record's module. */
  lemma StructuredModule(r: LogRecord)
    ensures "module" in StructuredSpec(r) && StructuredSpec(r)["module"] == VStr(r.moduleName)
  {
    assert "module" in Reserved;
    StructuredField(r, "module");
  }

  /** `exception` is written iff the record carries exception information or
      an attribute of that name; the attribute wins. */
  lemma StructuredException(r: LogRecord)
    ensures "exception" in StructuredSpec(r) <==> r.excText.Some? || "exception" in r.attrs
    ensures "exception" !in r.attrs && r.excText.Some? ==>
      StructuredSpec(r)["exception"] == VStr(r.excText.value)
  {
    assert "exception" !in Reserved;
    HeadKeys(r);
    assert "exception" !in StructuredKeys;
  }

  /** Every attribute outside the reserved set is copied verbatim. */
  lemma StructuredCopies(r: LogRecord)
    ensures forall k | k in r.attrs && k !in Reserved :: k in StructuredSpec(r) && StructuredSpec(r)[k] == r.attrs[k]
  {
  }

  lemma StructuredCopy(r: LogRecord, k: string)
    requires k in r.attrs && k !in Reserved
    ensures k in StructuredSpec(r) && StructuredSpec(r)[k] == r.attrs[k]
  {
  }

  lemma ReservedFixedKeys()
    ensures StructuredKeys * Reserved == {"module"}
  {
    assert "module" in Reserved;
    assert "timestamp" !in Reserved && "level" !in Reserved && "logger" !in Reserved;
    assert "message" !in Reserved && "function" !in Reserved && "line" !in Reserved;
  }

  /** No reserved name is a key except the fixed `module`, and nothing but
      the fixed keys, the exception and the custom attributes is written. */
  lemma StructuredKeysBound(r: LogRecord)
    ensures StructuredSpec(r).Keys * Reserved == {"module"}
    ensures StructuredSpec(r).Keys <= StructuredKeys + {"exception"} + (r.attrs.Keys - Reserved)
  {
    HeadKeys(r);
    ReservedFixedKeys();
    assert "exception" !in Reserved;
    assert "module" in StructuredSpec(r).Keys * Reserved;
  }

  /** The plain record of the unit tests, an INFO record of logger
      `test.logger` at line 42: level, logger, message and line come out as
      given, and there is a timestamp. */
  lemma StructuredBasicExample(r: LogRecord)
    requires r.name == "test.logger" && r.levelno == INFO && r.lineno == 42 && r.message == "Test message"
    requires r.attrs == map[]
    ensures var out := StructuredSpec(r);
      && "level" in out && "logger" in out && "message" in out && "line" in out && "timestamp" in out
      && out["level"] == VStr("INFO") && out["logger"] == VStr("test.logger")
      && out["message"] == VStr("Test message") && out["line"] == VInt(42)
  {
    StructuredKeysPresent(r);
    StructuredField(r, "level");
    StructuredField(r, "logger");
    StructuredField(r, "message");
    StructuredField(r, "line");
  }

  /** Attributes set on the record after it was made come out under their
      own names. */
  lemma StructuredCustomExample(r: LogRecord)
    requires r.attrs.Keys == {"session_id", "custom_field"}
    requires r.attrs["session_id"] == VStr("test-session-123") && r.attrs["custom_field"] == VStr("custom_value")
    ensures var out := StructuredSpec(r);
      && "session_id" in out && "custom_field" in out
      && out["session_id"] == VStr("test-session-123") && out["custom_field"] == VStr("custom_value")
  {
    assert "session_id" !in Reserved;
    assert "custom_field" !in Reserved;
    StructuredCopy(r, "session_id");
    StructuredCopy(r, "custom_field");
  }

  // ---------------------------------------------------------------------
  // dict.update

  /** One element of the sequence `dict.update` is given, read as a
      key/value pair. */
  function PairOf(item: Value): Outcome<(string, Value)> {
    match item
    case VList(xs) =>
      if |xs| != 2 then Raises(ValueError)
      else if xs[0].VStr? then Done((xs[0].s, xs[1]))
      else if xs[0].VList? || xs[0].VMap? then Raises(TypeError)  // unhashable key
      else Beyond
    case VStr(s) => if |s| == 2 then Done(([s[0]], VStr([s[1]]))) else Raises(ValueError)
    case VMap(m) => if |m| != 2 then Raises(ValueError) else Beyond
    case _ => Raises(TypeError)
  }

  /** Insert the pairs one by one; the first bad element raises. */
  function ApplyPairs(d: map<string, Value>, items: seq<Value>): Outcome<map<string, Value>>
    decreases |items|
  {
    if items == [] then Done(d)
    else match PairOf(items[0])
      case Done(p) => ApplyPairs(d[p.0 := p.1], items[1..])
      case Raises(e) => Raises(e)
      case Beyond => Beyond
  }

  /** `d.update(v)`: a dict is merged, its entries winning; a string or list
      is read as a sequence of pairs; anything else is not iterable. */
  function UpdateWith(d: map<string, Value>, v: Value): (res: Outcome<map<string, Value>>)
    ensures v.VMap? ==> res == Done(d + v.m)
    ensures v.VNull? || v.VBool? || v.VInt? || v.VReal? ==> res == Raises(TypeError)
  {
    match v
    case VMap(m) => Done(d + m)
    case VStr(s) => if s == [] then Done(d) else Raises(ValueError)
    case VList(items) => ApplyPairs(d, items)
    case _ => Raises(TypeError)
  }

  /** `d.update(m)` with a dict: every key of either is present, the dict's
      entries win, and every other entry of `d` is kept. */
  lemma UpdateWithDict(d: map<string, Value>, m: map<string, Value>)
    ensures UpdateWith(d, VMap(m)).Done?
    ensures var r := UpdateWith(d, VMap(m)).value;
      && r.Keys == d.Keys + m.Keys
      && (forall k | k in m :: r[k] == m[k])
      && (forall k | k in d && k !in m :: r[k] == d[k])
  {
  }

  /** `d.update(pairs)` with a list of string-keyed pairs assigns them one
      after the other, later pairs winning. */
  lemma UpdateWithPairs(d: map<string, Value>, ks: seq<string>, vs: seq<Value>)
    requires |ks| == |vs|
    ensures UpdateWith(d, VList(seq(|ks|, i requires 0 <= i < |ks| => VList([VStr(ks[i]), vs[i]]))))
      == Done(PairsInto(d, ks, vs))
  {
    ApplyStringPairs(d, ks, vs);
  }

  /** Updating from a list of string-keyed pairs gives the same mapping as
      updating from the dict those pairs denote, later pairs winning. */
  lemma {:induction false} ApplyStringPairs(d: map<string, Value>, ks: seq<string>, vs: seq<Value>)
    requires |ks| == |vs|
    ensures ApplyPairs(d, seq(|ks|, i requires 0 <= i < |ks| => VList([VStr(ks[i]), vs[i]]))) == Done(PairsInto(d, ks, vs))
    decreases |ks|
  {
    var items := seq(|ks|, i requires 0 <= i < |ks| => VList([VStr(ks[i]), vs[i]]));
    if ks != [] {
      assert items[0] == VList([VStr(ks[0]), vs[0]]);
      assert items[1..] == seq(|ks| - 1, i requires 0 <= i < |ks| - 1 => VList([VStr(ks[1..][i]), vs[1..][i]]));
      ApplyStringPairs(d[ks[0] := vs[0]], ks[1..], vs[1..]);
    }
  }

  function PairsInto(d: map<string, Value>, ks: seq<string>, vs: seq<Value>): map<string, Value>
    requires |ks| == |vs|
    decreases |ks|
  {
    if ks == [] then d else PairsInto(d[ks[0] := vs[0]], ks[1..], vs[1..])
  }

  /** `if hasattr(record, attr): log_data[key] = getattr(record, attr)`. */
  function Carry(m: map<string, Value>, attrs: map<string, Value>, attr: string, key: string): (res: map<string, Value>)
    ensures res.Keys == m.Keys + (if attr in attrs then {key} else {})
    ensures attr in attrs ==> res[key] == attrs[attr]
    ensures forall k | k in m && (k != key || attr !in attrs) :: res[k] == m[k]
  {
    if attr in attrs then m[key := attrs[attr]] else m
  }

  /** Merge the named attribute with `dict.update` when the record has it. */
  function MergeAttr(m: map<string, Value>, attrs: map<string, Value>, attr: string): Outcome<map<string, Value>> {
    if attr in attrs then UpdateWith(m, attrs[attr]) else Done(m)
  }

  // ---------------------------------------------------------------------
  // The interaction formatter

  function InteractionHead(r: LogRecord): map<string, Value> {
    map[
      "timestamp" := VStr(FormatPlain(r.created)),
      "session_id" := GetAttr(r.attrs, "session_id", VStr("unknown")),
      "interaction_type" := GetAttr(r.attrs, "interaction_type", VStr("general")),
      "user_id" := GetAttr(r.attrs, "user_id", VStr("anonymous")),
      "message" := VStr(r.message)]
  }

  const InteractionHeadKeys: set<string> := {"timestamp", "session_id", "interaction_type", "user_id", "message"}

  /** The three keys copied from optional attributes. */
  const InteractionOptionalKeys: set<string> := {"duration_ms", "agent", "tool"}

  function InteractionExtras(m: map<string, Value>, r: LogRecord): map<string, Value> {
    Carry(Carry(Carry(m, r.attrs, "duration", "duration_ms"), r.attrs, "agent_name", "agent"), r.attrs, "tool_name", "tool")
  }

  /** The mapping the interaction formatter serialises: the base fields,
      then `interaction_data` merged over them, then the optional fields
      over both. */
  function InteractionSpec(r: LogRecord): Outcome<map<string, Value>> {
    match MergeAttr(InteractionHead(r), r.attrs, "interaction_data")
    case Done(m) => Done(InteractionExtras(m, r))
    case Raises(e) => Raises(e)
    case Beyond => Beyond
  }

  /** `InteractionFormatter.format` up to the JSON text. */
  method InteractionFormat(r: LogRecord) returns (out: Outcome<map<string, Value>>)
    ensures out == InteractionSpec(r)
  {
    var logData := InteractionHead(r);
    if "interaction_data" in r.attrs {
      var updated := UpdateWith(logData, r.attrs["interaction_data"]);
      if !updated.Done? {
        return updated;
      }
      logData := updated.value;
    }
    if "duration" in r.attrs {
      logData := logData["duration_ms" := r.attrs["duration"]];
    }
    if "agent_name" in r.attrs {
      logData := logData["agent" := r.attrs["agent_name"]];
    }
    if "tool_name" in r.attrs {
      logData := logData["tool" := r.attrs["tool_name"]];
    }
    out := Done(logData);
  }

  /** The base fields, each defaulted when the record lacks its attribute. */
  lemma InteractionHeadDefaults(r: LogRecord)
    ensures InteractionHead(r).Keys == InteractionHeadKeys
    ensures var h := InteractionHead(r);
      && h["timestamp"] == VStr(FormatPlain(r.created))
      && h["session_id"] == (if "session_id" in r.attrs then r.attrs["session_id"] else VStr("unknown"))
      && h["interaction_type"] == (if "interaction_type" in r.attrs then r.attrs["interaction_type"] else VStr("general"))
      && h["user_id"] == (if "user_id" in r.attrs then r.attrs["user_id"] else VStr("anonymous"))
      && h["message"] == VStr(r.message)
  {
  }

  /** The optional fields are present exactly when their attributes are,
      even when those hold None, and win over everything before them;
      the other keys come through unchanged. */
  lemma InteractionOptional(m: map<string, Value>, r: LogRecord)
    ensures var out := InteractionExtras(m, r);
      && out.Keys == m.Keys
        + (if "duration" in r.attrs then {"duration_ms"} else {})
        + (if "agent_name" in r.attrs then {"agent"} else {})
        + (if "tool_name" in r.attrs then {"tool"} else {})
      && ("duration" in r.attrs ==> out["duration_ms"] == r.attrs["duration"])
      && ("agent_name" in r.attrs ==> out["agent"] == r.attrs["agent_name"])
      && ("tool_name" in r.attrs ==> out["tool"] == r.attrs["tool_name"])
      && forall k | k in m && k !in InteractionOptionalKeys :: out[k] == m[k]
  {
  }

  /** Without `interaction_data` the formatter cannot fail, and the base
      fields hold their (defaulted) values. */
  lemma InteractionDefaults(r: LogRecord)
    requires "interaction_data" !in r.attrs
    ensures InteractionSpec(r).Done?
    ensures forall k | k in InteractionHeadKeys :: k in InteractionSpec(r).value && InteractionSpec(r).value[k] == InteractionHead(r)[k]
  {
    InteractionHeadDefaults(r);
    InteractionOptional(InteractionHead(r), r);
    assert InteractionHeadKeys !! InteractionOptionalKeys;
  }

  /** `interaction_data` that is a dict is merged after the base fields and
      wins over them; only the three optional fields win over it. Data that is
      neither a dict nor iterable raises TypeError. */
  lemma InteractionDataWins(r: LogRecord)
    requires "interaction_data" in r.attrs
    ensures var data := r.attrs["interaction_data"];
      data.VMap? ==> (InteractionSpec(r).Done?
        && InteractionHeadKeys + data.m.Keys <= InteractionSpec(r).value.Keys
        && forall k | k in data.m && k !in InteractionOptionalKeys :: InteractionSpec(r).value[k] == data.m[k])
    ensures var data := r.attrs["interaction_data"];
      data.VNull? || data.VBool? || data.VInt? || data.VReal? ==> InteractionSpec(r) == Raises(TypeError)
  {
    var data := r.attrs["interaction_data"];
    if data.VMap? {
      InteractionHeadDefaults(r);
      InteractionOptional(InteractionHead(r) + data.m, r);
    }
  }

  /** One entry of dict-valued `interaction_data` that no optional field
      overrides. */
  lemma InteractionDataKey(r: LogRecord, k: string)
    requires "interaction_data" in r.attrs && r.attrs["interaction_data"].VMap?
    requires k in r.attrs["interaction_data"].m && k !in InteractionOptionalKeys
    ensures InteractionSpec(r).Done? && k in InteractionSpec(r).value
    ensures InteractionSpec(r).value[k] == r.attrs["interaction_data"].m[k]
  {
    InteractionOptional(InteractionHead(r) + r.attrs["interaction_data"].m, r);
  }

  /** One base field that dict-valued `interaction_data` does not override
      and no optional field does. */
  lemma InteractionHeadKey(r: LogRecord, k: string)
    requires "interaction_data" in r.attrs && r.attrs["interaction_data"].VMap?
    requires k in InteractionHeadKeys && k !in r.attrs["interaction_data"].m && k !in InteractionOptionalKeys
    ensures InteractionSpec(r).Done? && k in InteractionSpec(r).value
    ensures InteractionSpec(r).value[k] == InteractionHead(r)[k]
  {
    InteractionHeadDefaults(r);
    InteractionOptional(InteractionHead(r) + r.attrs["interaction_data"].m, r);
  }

  // ---------------------------------------------------------------------
  // The agent formatter

  function AgentHead(r: LogRecord): map<string, Value> {
    map[
      "timestamp" := VStr(FormatPlain(r.created)),
      "agent" := GetAttr(r.attrs, "agent_name", VStr("unknown")),
      "action" := GetAttr(r.attrs, "action", VStr("activity")),
      "session_id" := GetAttr(r.attrs, "session_id", VStr("unknown")),
      "message" := VStr(r.message)]
  }

  const AgentHeadKeys: set<string> := {"timestamp", "agent", "action", "session_id", "message"}

  /** The two keys copied from optional attributes. */
  const AgentOptionalKeys: set<string> := {"llm_model", "tokens_used"}

  function AgentExtras(m: map<string, Value>, r: LogRecord): map<string, Value> {
    Carry(Carry(m, r.attrs, "llm_model", "llm_model"), r.attrs, "tokens_used", "tokens_used")
  }

  /** The mapping the agent formatter serialises: base fields, `agent_data`
      merged over them, then the model name and token count when present. */
  function AgentSpec(r: LogRecord): Outcome<map<string, Value>> {
    match MergeAttr(AgentHead(r), r.attrs, "agent_data")
    case Done(m) => Done(AgentExtras(m, r))
    case Raises(e) => Raises(e)
    case Beyond => Beyond
  }

  /** `AgentFormatter.format` up to the JSON text. */
  method AgentFormat(r: LogRecord) returns (out: Outcome<map<string, Value>>)
    ensures out == AgentSpec(r)
  {
    var logData := AgentHead(r);
    if "agent_data" in r.attrs {
      var updated := UpdateWith(logData, r.attrs["agent_data"]);
      if !updated.Done? {
        return updated;
      }
      logData := updated.value;
    }
    if "llm_model" in r.attrs {
      logData := logData["llm_model" := r.attrs["llm_model"]];
    }
    if "tokens_used" in r.attrs {
      logData := logData["tokens_used" := r.attrs["tokens_used"]];
    }
    out := Done(logData);
  }

  /** Agent and session default to "unknown" and the action to "activity". */
  lemma AgentHeadDefaults(r: LogRecord)
    ensures AgentHead(r).Keys == AgentHeadKeys
    ensures var h := AgentHead(r);
      && h["timestamp"] == VStr(FormatPlain(r.created))
      && h["agent"] == (if "agent_name" in r.attrs then r.attrs["agent_name"] else VStr("unknown"))
      && h["action"] == (if "action" in r.attrs then r.attrs["action"] else VStr("activity"))
      && h["session_id"] == (if "session_id" in r.attrs then r.attrs["session_id"] else VStr("unknown"))
      && h["message"] == VStr(r.message)
  {
  }

  /** The model name and token count are added only when the record has
      them, and win over everything before them. */
  lemma AgentOptional(m: map<string, Value>, r: LogRecord)
    ensures var out := AgentExtras(m, r);
      && out.Keys == m.Keys
        + (if "llm_model" in r.attrs then {"llm_model"} else {})
        + (if "tokens_used" in r.attrs then {"tokens_used"} else {})
      && ("llm_model" in r.attrs ==> out["llm_model"] == r.attrs["llm_model"])
      && ("tokens_used" in r.attrs ==> out["tokens_used"] == r.attrs["tokens_used"])
      && forall k | k in m && k !in AgentOptionalKeys :: out[k] == m[k]
  {
  }

  /** Without `agent_data` the formatter cannot fail and the base fields
      hold their (defaulted) values. */
  lemma AgentDefaults(r: LogRecord)
    requires "agent_data" !in r.attrs
    ensures AgentSpec(r).Done?
    ensures forall k | k in AgentHeadKeys :: k in AgentSpec(r).value && AgentSpec(r).value[k] == AgentHead(r)[k]
  {
    AgentHeadDefaults(r);
    AgentOptional(AgentHead(r), r);
    assert AgentHeadKeys !! AgentOptionalKeys;
  }

  /** `agent_data` that is a dict wins over the base fields; the model name
      and token count win over it. */
  lemma AgentDataWins(r: LogRecord)
    requires "agent_data" in r.attrs
    ensures var data := r.attrs["agent_data"];
      data.VMap? ==> (AgentSpec(r).Done?
        && AgentHeadKeys + data.m.Keys <= AgentSpec(r).value.Keys
        && forall k | k in data.m && k !in AgentOptionalKeys :: AgentSpec(r).value[k] == data.m[k])
    ensures var data := r.attrs["agent_data"];
      data.VNull? || data.VBool? || data.VInt? || data.VReal? ==> AgentSpec(r) == Raises(TypeError)
  {
    var data := r.attrs["agent_data"];
    if data.VMap? {
      AgentHeadDefaults(r);
      AgentOptional(AgentHead(r) + data.m, r);
    }
  }

  /** One entry of dict-valued `agent_data` that no optional field
      overrides. */
  lemma AgentDataKey(r: LogRecord, k: string)
    requires "agent_data" in r.attrs && r.attrs["agent_data"].VMap?
    requires k in r.attrs["agent_data"].m && k !in AgentOptionalKeys
    ensures AgentSpec(r).Done? && k in AgentSpec(r).value
    ensures AgentSpec(r).value[k] == r.attrs["agent_data"].m[k]
  {
    AgentOptional(AgentHead(r) + r.attrs["agent_data"].m, r);
  }

  /** One base field that dict-valued `agent_data` does not override. */
  lemma AgentHeadKey(r: LogRecord, k: string)
    requires "agent_data" in r.attrs && r.attrs["agent_data"].VMap?
    requires k in AgentHeadKeys && k !in r.attrs["agent_data"].m && k !in AgentOptionalKeys
    ensures AgentSpec(r).Done? && k in AgentSpec(r).value
    ensures AgentSpec(r).value[k] == AgentHead(r)[k]
  {
    AgentHeadDefaults(r);
    AgentOptional(AgentHead(r) + r.attrs["agent_data"].m, r);
  }
}
