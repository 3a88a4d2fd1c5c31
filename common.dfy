/** Shared vocabulary of the logging model: optional values, error results,
    the closed set of values a log record or a formatter output can hold, and
    the fixed set of log channels. */
module Common {

  datatype Option<+T> = None | Some(value: T) {
    function GetOr(default: T): T {
      match this
      case Some(v) => v
      case None => default
    }
  }

  /** The exceptions the modelled Python code can raise on its own. */
  datatype PyError =
    | ValueError      // int() of a malformed string
    | AttributeError  // getattr(logging, name) for a name the module lacks
    | TypeError       // Logger.log with a level that is not an int; dict.update of a non-mapping

  datatype Result<+T> = Ok(value: T) | Err(error: PyError)

  /** The values that reach a record attribute or a formatter's output
      mapping: None, bool, int, float, str, list and str-keyed dict. */
  datatype Value =
    | VNull
    | VBool(b: bool)
    | VInt(i: int)
    | VReal(r: real)
    | VStr(s: string)
    | VList(items: seq<Value>)
    | VMap(m: map<string, Value>)

  function OptStr(o: Option<string>): Value {
    match o
    case Some(s) => VStr(s)
    case None => VNull
  }

  function OptInt(o: Option<int>): Value {
    match o
    case Some(i) => VInt(i)
    case None => VNull
  }

  function OptReal(o: Option<real>): Value {
    match o
    case Some(r) => VReal(r)
    case None => VNull
  }

  function OptMap(o: Option<map<string, Value>>): Value {
    match o
    case Some(m) => VMap(m)
    case None => VNull
  }

  /** Python truthiness of an optional string: neither None nor "". */
  predicate TruthyStr(o: Option<string>) {
    o.Some? && o.value != ""
  }

  /** Python truthiness of an optional int: neither None nor 0. */
  predicate TruthyInt(o: Option<int>) {
    o.Some? && o.value != 0
  }

  /** `d or {}` for an optional dict. */
  function OrEmpty(o: Option<map<string, Value>>): map<string, Value> {
    if o.Some? && o.value != map[] then o.value else map[]
  }

  /** `getattr(obj, key, default)` over an attribute mapping. */
  function GetAttr(attrs: map<string, Value>, key: string, default: Value): Value {
    if key in attrs then attrs[key] else default
  }

  /** The seven fixed channels of the subsystem. */
  datatype Channel = Interactions | Agents | Workflows | Tools | System | Performance | Security {
    /** The sub-directory of the log directory, and the stem of the channel's files. */
    function DirName(): string {
      match this
      case Interactions => "interactions"
      case Agents => "agents"
      case Workflows => "workflows"
      case Tools => "tools"
      case System => "system"
      case Performance => "performance"
      case Security => "security"
    }

    /** The name of the Python logger of a named channel (System is the root logger). */
    function LoggerName(): string {
      "deer_flow." + DirName()
    }
  }

  /** The six channels that have a logger of their own, in setup order. */
  const NamedChannels: seq<Channel> := [Interactions, Agents, Workflows, Tools, Performance, Security]

  /** The seven sub-directories the setup creates, in creation order. */
  const AllChannels: seq<Channel> := [Interactions, Agents, Workflows, Tools, System, Performance, Security]
}
