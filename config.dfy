/** The configuration of the logging subsystem (`LoggingConfig`,
    src/logging/config.py) and `setup_logging`, which wires the root logger
    and the six channel loggers. The environment is a map from variable
    names to values; file system and logger objects are the fields of a
    `LoggingState` object. */
module Config {
  import opened Common
  import opened Text
  import opened Levels
  import opened Clock
  import opened Handlers

  // ---------------------------------------------------------------------
  // The configuration record

  datatype LoggingConfig = LoggingConfig(
    logDir: string,
    enableInteractionLogging: bool,
    interactionLogLevel: string,
    enableAgentLogging: bool,
    agentLogLevel: string,
    enableWorkflowLogging: bool,
    workflowLogLevel: string,
    enableToolLogging: bool,
    toolLogLevel: string,
    systemLogLevel: string,
    maxLogFiles: int,
    enablePerformanceLogging: bool,
    enableSecurityLogging: bool)
  {
    /** Whether the channel's setup step does anything (the root, System, always does). */
    predicate Enabled(c: Channel) {
      match c
      case Interactions => enableInteractionLogging
      case Agents => enableAgentLogging
      case Workflows => enableWorkflowLogging
      case Tools => enableToolLogging
      case System => true
      case Performance => enablePerformanceLogging
      case Security => enableSecurityLogging
    }

    /** The configured level name of a channel; performance and security
        have none and are always set to INFO. */
    function LevelName(c: Channel): string {
      match c
      case Interactions => interactionLogLevel
      case Agents => agentLogLevel
      case Workflows => workflowLogLevel
      case Tools => toolLogLevel
      case System => systemLogLevel
      case Performance => "INFO"
      case Security => "INFO"
    }
  }

  /** `LoggingConfig()`. */
  const DefaultConfig := LoggingConfig("logs", true, "INFO", true, "INFO", true, "INFO", true, "INFO", "INFO", 30,
                                       true, true)

  /** The defaults: directory "logs", everything enabled at INFO, 30 files kept. */
  lemma DefaultConfigValues(c: Channel)
    ensures DefaultConfig.logDir == "logs" && DefaultConfig.maxLogFiles == 30
    ensures DefaultConfig.Enabled(c) && DefaultConfig.LevelName(c) == "INFO"
  {
  }

  // ---------------------------------------------------------------------
  // from_env

  /** `os.getenv(key, default)`. */
  function GetEnv(env: map<string, string>, key: string, default: string): string {
    if key in env then env[key] else default
  }

  /** An enable flag: the variable, "true" when unset, lower-cased equals "true". */
  predicate EnvFlag(env: map<string, string>, key: string) {
    ToLower(GetEnv(env, key, "true")) == "true"
  }

  /** `LoggingConfig.from_env()`: every field from its variable; the only
      failure is `int()` refusing the value of DEER_FLOW_MAX_LOG_FILES. */
  function FromEnv(env: map<string, string>): Result<LoggingConfig> {
    match ParseInt(GetEnv(env, "DEER_FLOW_MAX_LOG_FILES", "30"))
    case None => Err(ValueError)
    case Some(maxFiles) =>
      Ok(LoggingConfig(
        GetEnv(env, "DEER_FLOW_LOG_DIR", "logs"),
        EnvFlag(env, "DEER_FLOW_LOG_INTERACTIONS"),
        GetEnv(env, "DEER_FLOW_INTERACTION_LOG_LEVEL", "INFO"),
        EnvFlag(env, "DEER_FLOW_LOG_AGENTS"),
        GetEnv(env, "DEER_FLOW_AGENT_LOG_LEVEL", "INFO"),
        EnvFlag(env, "DEER_FLOW_LOG_WORKFLOWS"),
        GetEnv(env, "DEER_FLOW_WORKFLOW_LOG_LEVEL", "INFO"),
        EnvFlag(env, "DEER_FLOW_LOG_TOOLS"),
        GetEnv(env, "DEER_FLOW_TOOL_LOG_LEVEL", "INFO"),
        GetEnv(env, "DEER_FLOW_SYSTEM_LOG_LEVEL", "INFO"),
        maxFiles,
        EnvFlag(env, "DEER_FLOW_LOG_PERFORMANCE"),
        EnvFlag(env, "DEER_FLOW_LOG_SECURITY")))
  }

  /** A flag is on exactly when its variable is unset or spells "true" in
      any mix of cases. */
  lemma EnvFlagRule(env: map<string, string>, key: string)
    ensures EnvFlag(env, key) <==> (key !in env ||
      (var v := env[key]; |v| == 4 && v[0] in "tT" && v[1] in "rR" && v[2] in "uU" && v[3] in "eE"))
  {
    LowerIsTrue(GetEnv(env, key, "true"));
  }

  lemma SmallNumerals()
    ensures ParseInt("30") == Some(30) && ParseInt("7") == Some(7)
  {
    assert IntToString(30) == "30";
    assert IntToString(7) == "7";
    ParseIntRoundTrip(30);
    ParseIntRoundTrip(7);
  }

  /** An unset flag is on. */
  lemma UnsetFlag(env: map<string, string>, key: string)
    requires key !in env
    ensures EnvFlag(env, key)
  {
    LowerIsTrue("true");
  }

  /** With no variable set the environment gives the defaults. */
  lemma FromEnvEmpty()
    ensures FromEnv(map[]) == Ok(DefaultConfig)
  {
    SmallNumerals();
    var env: map<string, string> := map[];
    UnsetFlag(env, "DEER_FLOW_LOG_INTERACTIONS");
    UnsetFlag(env, "DEER_FLOW_LOG_AGENTS");
    UnsetFlag(env, "DEER_FLOW_LOG_WORKFLOWS");
    UnsetFlag(env, "DEER_FLOW_LOG_TOOLS");
    UnsetFlag(env, "DEER_FLOW_LOG_PERFORMANCE");
    UnsetFlag(env, "DEER_FLOW_LOG_SECURITY");
  }

  /** from_env fails exactly when the file limit is not an int literal, and
      otherwise takes the directory, the level names and the limit as they
      are written. */
  lemma FromEnvPassThrough(env: map<string, string>)
    ensures FromEnv(env).Err? <==> ParseInt(GetEnv(env, "DEER_FLOW_MAX_LOG_FILES", "30")).None?
    ensures FromEnv(env).Err? ==> FromEnv(env).error == ValueError
    ensures FromEnv(env).Ok? ==> var c := FromEnv(env).value;
      && c.logDir == GetEnv(env, "DEER_FLOW_LOG_DIR", "logs")
      && c.interactionLogLevel == GetEnv(env, "DEER_FLOW_INTERACTION_LOG_LEVEL", "INFO")
      && c.agentLogLevel == GetEnv(env, "DEER_FLOW_AGENT_LOG_LEVEL", "INFO")
      && c.workflowLogLevel == GetEnv(env, "DEER_FLOW_WORKFLOW_LOG_LEVEL", "INFO")
      && c.toolLogLevel == GetEnv(env, "DEER_FLOW_TOOL_LOG_LEVEL", "INFO")
      && c.systemLogLevel == GetEnv(env, "DEER_FLOW_SYSTEM_LOG_LEVEL", "INFO")
      && Some(c.maxLogFiles) == ParseInt(GetEnv(env, "DEER_FLOW_MAX_LOG_FILES", "30"))
  {
  }

  /** Any int written to DEER_FLOW_MAX_LOG_FILES comes back as the limit. */
  lemma FromEnvMaxFiles(env: map<string, string>, n: int)
    requires "DEER_FLOW_MAX_LOG_FILES" in env && env["DEER_FLOW_MAX_LOG_FILES"] == IntToString(n)
    ensures FromEnv(env).Ok? && FromEnv(env).value.maxLogFiles == n
  {
    ParseIntRoundTrip(n);
  }

  /** The environment of the unit tests: directory, interaction flag,
      interaction level and file limit set. */
  lemma FromEnvExample(env: map<string, string>)
    requires "DEER_FLOW_LOG_DIR" in env && "DEER_FLOW_LOG_INTERACTIONS" in env
    requires "DEER_FLOW_INTERACTION_LOG_LEVEL" in env && "DEER_FLOW_MAX_LOG_FILES" in env
    requires env["DEER_FLOW_LOG_DIR"] == "/tmp/test_logs" && env["DEER_FLOW_LOG_INTERACTIONS"] == "false"
    requires env["DEER_FLOW_INTERACTION_LOG_LEVEL"] == "DEBUG" && env["DEER_FLOW_MAX_LOG_FILES"] == "7"
    ensures FromEnv(env).Ok?
    ensures var c := FromEnv(env).value;
      && c.logDir == "/tmp/test_logs" && !c.enableInteractionLogging
      && c.interactionLogLevel == "DEBUG" && c.maxLogFiles == 7
  {
    SmallNumerals();
    assert GetEnv(env, "DEER_FLOW_MAX_LOG_FILES", "30") == "7";
    assert GetEnv(env, "DEER_FLOW_LOG_DIR", "logs") == "/tmp/test_logs";
    assert GetEnv(env, "DEER_FLOW_INTERACTION_LOG_LEVEL", "INFO") == "DEBUG";
    EnvFlagRule(env, "DEER_FLOW_LOG_INTERACTIONS");
    assert !EnvFlag(env, "DEER_FLOW_LOG_INTERACTIONS");
  }

  // ---------------------------------------------------------------------
  // Loggers and what setup attaches to them

  datatype FormatterKind = StructuredKind | InteractionKind | ConsoleKind

  /** A handler as setup configures it: a date-rotating file sink with its
      base path, file limit, formatter and handler level, or the console. */
  datatype Sink =
    | FileSink(path: FilePath, maxFiles: int, formatter: FormatterKind, level: int)
    | ConsoleSink(formatter: FormatterKind, level: int)

  datatype LoggerState = LoggerState(level: int, propagate: bool, handlers: seq<Sink>)

  /** A logger `logging.getLogger` has just created. */
  const FreshLogger := LoggerState(NOTSET, true, [])

  /** `getattr(logging, name)` followed by `setLevel`: a level name gives its
      level; the string BASIC_FORMAT is refused as an unknown level name,
      the dict _STYLES as not a level; any other name is not an attribute. */
  function SetLevelByName(name: string): (r: Result<int>)
    ensures r.Ok? <==> LevelByName(name).Some?
    ensures r.Ok? ==> IsStandardLevel(r.value) && GetLevelName(r.value) != ""
  {
    match LevelByName(name)
    case Some(level) => Ok(level)
    case None =>
      if name == "BASIC_FORMAT" then Err(ValueError)
      else if name == "_STYLES" then Err(TypeError)
      else Err(AttributeError)
  }

  /** The level setup gives a channel logger. */
  function ChannelLevel(config: LoggingConfig, c: Channel): Result<int> {
    if c == Performance || c == Security then Ok(INFO) else SetLevelByName(config.LevelName(c))
  }

  function ChannelDir(logDir: string, c: Channel): string {
    logDir + "/" + c.DirName()
  }

  /** `{log_dir}/{ch}/{ch}.log`. */
  function ChannelFile(logDir: string, c: Channel): FilePath {
    FilePath(ChannelDir(logDir, c), c.DirName() + ".log")
  }

  /** The handler of a channel logger: interactions are written by the
      interaction formatter, everything else by the structured one. */
  function ChannelSink(config: LoggingConfig, c: Channel): Sink {
    FileSink(ChannelFile(config.logDir, c), config.maxLogFiles,
      if c == Interactions then InteractionKind else StructuredKind, NOTSET)
  }

  function SystemSink(config: LoggingConfig, level: int): Sink {
    FileSink(ChannelFile(config.logDir, System), config.maxLogFiles, StructuredKind, level)
  }

  const ConsoleHandler := ConsoleSink(ConsoleKind, WARNING)

  /** The directories setup makes: the log directory and one per channel. */
  function SetupDirs(logDir: string): set<string> {
    {logDir} + set c: Channel | c in AllChannels :: ChannelDir(logDir, c)
  }

  function LoggerOf(loggers: map<Channel, LoggerState>, c: Channel): LoggerState {
    if c in loggers then loggers[c] else FreshLogger
  }

  /** One `_setup_*_logger` step: nothing for a disabled channel; otherwise
      the level, `propagate = False` and one more handler, unless the level
      lookup fails, which leaves the logger as it was. */
  function SetupChannel(loggers: map<Channel, LoggerState>, config: LoggingConfig, c: Channel)
    : (r: (map<Channel, LoggerState>, Option<PyError>))
    ensures r.1.None? ==> forall d :: d != c ==> LoggerOf(r.0, d) == LoggerOf(loggers, d)
    ensures r.1.Some? ==> r.0 == loggers
  {
    if !config.Enabled(c) then (loggers, None)
    else match ChannelLevel(config, c)
      case Err(e) => (loggers, Some(e))
      case Ok(level) =>
        (loggers[c := LoggerState(level, false, LoggerOf(loggers, c).handlers + [ChannelSink(config, c)])], None)
  }

  /** The steps in order, up to the first that raises. */
  function SetupChannels(loggers: map<Channel, LoggerState>, config: LoggingConfig, cs: seq<Channel>)
    : (map<Channel, LoggerState>, Option<PyError>)
    decreases |cs|
  {
    if cs == [] then (loggers, None)
    else
      var (next, raised) := SetupChannel(loggers, config, cs[0]);
      if raised.Some? then (next, raised) else SetupChannels(next, config, cs[1..])
  }

  /** Every enabled channel's level name resolves. */
  predicate LevelsResolve(config: LoggingConfig) {
    forall c :: config.Enabled(c) ==> ChannelLevel(config, c).Ok?
  }

  /** When every level resolves, the channels set up are exactly the
      enabled ones among `cs`, each with its level, no propagation and its
      sink appended; the rest are untouched. */
  lemma {:induction false} SetupChannelsResolved(loggers: map<Channel, LoggerState>, config: LoggingConfig,
                                                 cs: seq<Channel>, c: Channel)
    requires LevelsResolve(config)
    requires forall i, j :: 0 <= i < j < |cs| ==> cs[i] != cs[j]
    ensures SetupChannels(loggers, config, cs).1 == None
    ensures LoggerOf(SetupChannels(loggers, config, cs).0, c) ==
      if c in cs && config.Enabled(c) then
        LoggerState(ChannelLevel(config, c).value, false, LoggerOf(loggers, c).handlers + [ChannelSink(config, c)])
      else LoggerOf(loggers, c)
    decreases |cs|
  {
    if cs != [] {
      var next := SetupChannel(loggers, config, cs[0]).0;
      SetupChannelsResolved(next, config, cs[1..], c);
      if c == cs[0] {
        assert c !in cs[1..] by {
          forall j | 0 <= j < |cs[1..]| ensures cs[1..][j] != c {
            assert cs[1..][j] == cs[j + 1];
          }
        }
      } else {
        assert c in cs <==> c in cs[1..];
      }
    }
  }

  /** A failing step stops the setup: the channel whose level does not
      resolve, and every channel after it, are left as they were. */
  lemma {:induction false} SetupChannelsStops(loggers: map<Channel, LoggerState>, config: LoggingConfig,
                                              cs: seq<Channel>, k: nat)
    requires k < |cs| && config.Enabled(cs[k]) && ChannelLevel(config, cs[k]).Err?
    requires forall i, j :: 0 <= i < j < |cs| ==> cs[i] != cs[j]
    ensures SetupChannels(loggers, config, cs).1.Some?
    ensures forall j :: k <= j < |cs| ==> LoggerOf(SetupChannels(loggers, config, cs).0, cs[j]) == LoggerOf(loggers, cs[j])
    decreases |cs|
  {
    var (next, raised) := SetupChannel(loggers, config, cs[0]);
    if k > 0 && raised.None? {
      SetupChannelsStops(next, config, cs[1..], k - 1);
      forall j | k <= j < |cs| ensures LoggerOf(next, cs[j]) == LoggerOf(loggers, cs[j]) {
        assert cs[j] != cs[0];
      }
      forall j | k <= j < |cs| ensures cs[j] == cs[1..][j - 1] { }
    }
  }

  /** List.remove: the first occurrence of h goes, if there is one. */
  function RemoveFirst(hs: seq<Sink>, h: Sink): (r: seq<Sink>)
    ensures h !in hs ==> r == hs
    ensures h in hs ==> multiset(r) == multiset(hs) - multiset{h}
    ensures |hs| > 0 && hs[0] == h ==> r == hs[1..]
  {
    if hs == [] then []
    else if hs[0] == h then
      assert hs == [hs[0]] + hs[1..];
      hs[1..]
    else
      assert hs == [hs[0]] + hs[1..];
      [hs[0]] + RemoveFirst(hs[1..], h)
  }

  /** The logging module's state the setup touches: the directories that
      exist, the root logger and the channel loggers that have been created. */
  class LoggingState {
    var dirs: set<string>
    var root: LoggerState
    var loggers: map<Channel, LoggerState>

    /** A process in which no logger has been configured yet. */
    constructor (dirs: set<string>)
      ensures this.dirs == dirs && root == LoggerState(WARNING, true, []) && loggers == map[]
    {
      this.dirs := dirs;
      root := LoggerState(WARNING, true, []);
      loggers := map[];
    }

    /** `for handler in root_logger.handlers[:]: root_logger.removeHandler(handler)`. */
    method ClearRoot()
      modifies this
      ensures root == old(root).(handlers := [])
      ensures dirs == old(dirs) && loggers == old(loggers)
    {
      var snapshot := root.handlers;
      var i := 0;
      while i < |snapshot|
        invariant 0 <= i <= |snapshot|
        invariant root == old(root).(handlers := snapshot[i..])
        invariant dirs == old(dirs) && loggers == old(loggers)
      {
        root := root.(handlers := RemoveFirst(root.handlers, snapshot[i]));
        i := i + 1;
      }
    }

    /** One `_setup_*_logger`. */
    method SetupChannelLogger(config: LoggingConfig, c: Channel) returns (raised: Option<PyError>)
      modifies this
      ensures (loggers, raised) == SetupChannel(old(loggers), config, c)
      ensures dirs == old(dirs) && root == old(root)
    {
      raised := None;
      if !config.Enabled(c) {
        return;
      }
      match ChannelLevel(config, c)
      case Err(e) =>
        raised := Some(e);
      case Ok(level) =>
        var logger := LoggerOf(loggers, c);
        logger := logger.(level := level);
        logger := logger.(propagate := false);
        logger := logger.(handlers := logger.handlers + [ChannelSink(config, c)]);
        loggers := loggers[c := logger];
    }

    /** `setup_logging(config)` (from the environment when no config is
        given): the directories first, then the root logger's level, its
        handlers replaced by the system file sink and the console, then the
        six channel steps in order; the first exception stops it, and is
        returned. */
    method SetupLogging(config: Option<LoggingConfig>, env: map<string, string>) returns (raised: Option<PyError>)
      modifies this
      ensures config.None? && FromEnv(env).Err? ==>
        raised == Some(FromEnv(env).error) && dirs == old(dirs) && root == old(root) && loggers == old(loggers)
      ensures var cfg := if config.Some? then Ok(config.value) else FromEnv(env);
        cfg.Ok? ==>
          && dirs == old(dirs) + SetupDirs(cfg.value.logDir)
          && (match SetLevelByName(cfg.value.systemLogLevel)
              case Err(e) => raised == Some(e) && root == old(root) && loggers == old(loggers)
              case Ok(level) =>
                && root == LoggerState(level, old(root).propagate, [SystemSink(cfg.value, level), ConsoleHandler])
                && (loggers, raised) == SetupChannels(old(loggers), cfg.value, NamedChannels))
    {
      var cfg: LoggingConfig;
      if config.Some? {
        cfg := config.value;
      } else {
        match FromEnv(env)
        case Err(e) =>
          raised := Some(e);
          return;
        case Ok(c) =>
          cfg := c;
      }
      MakeDirs(cfg.logDir);
      raised := SetupRoot(cfg);
      if raised.Some? {
        return;
      }
      raised := SetupChannelLoggers(cfg);
    }

    /** The `mkdir(exist_ok=True)` calls: the log directory, then one
        sub-directory per channel. */
    method MakeDirs(logDir: string)
      modifies this
      ensures dirs == old(dirs) + SetupDirs(logDir)
      ensures root == old(root) && loggers == old(loggers)
    {
      ghost var before := dirs;
      MakeDir(logDir);
      MakeDir(ChannelDir(logDir, Interactions));
      MakeDir(ChannelDir(logDir, Agents));
      MakeDir(ChannelDir(logDir, Workflows));
      MakeDir(ChannelDir(logDir, Tools));
      MakeDir(ChannelDir(logDir, System));
      MakeDir(ChannelDir(logDir, Performance));
      MakeDir(ChannelDir(logDir, Security));
      AllChannelDirs(logDir);
      AddEight(before, logDir, ChannelDir(logDir, Interactions), ChannelDir(logDir, Agents),
        ChannelDir(logDir, Workflows), ChannelDir(logDir, Tools), ChannelDir(logDir, System),
        ChannelDir(logDir, Performance), ChannelDir(logDir, Security));
    }

    /** `Path(path).mkdir(exist_ok=True)`. */
    method MakeDir(path: string)
      modifies this
      ensures dirs == old(dirs) + {path}
      ensures root == old(root) && loggers == old(loggers)
    {
      dirs := dirs + {path};
    }

    /** The root logger: its level, then its handlers replaced by the system
        file sink at that level and the console at WARNING. */
    method SetupRoot(cfg: LoggingConfig) returns (raised: Option<PyError>)
      modifies this
      ensures dirs == old(dirs) && loggers == old(loggers)
      ensures match SetLevelByName(cfg.systemLogLevel)
        case Err(e) => raised == Some(e) && root == old(root)
        case Ok(level) =>
          raised == None && root == LoggerState(level, old(root).propagate, [SystemSink(cfg, level), ConsoleHandler])
    {
      var systemLevel := SetLevelByName(cfg.systemLogLevel);
      if systemLevel.Err? {
        raised := Some(systemLevel.error);
        return;
      }
      raised := None;
      root := root.(level := systemLevel.value);
      ClearRoot();
      root := root.(handlers := root.handlers + [SystemSink(cfg, systemLevel.value)]);
      root := root.(handlers := root.handlers + [ConsoleHandler]);
    }

    /** The six `_setup_*_logger` calls of `setup_logging`, in order. */
    method SetupChannelLoggers(cfg: LoggingConfig) returns (raised: Option<PyError>)
      modifies this
      ensures (loggers, raised) == SetupChannels(old(loggers), cfg, NamedChannels)
      ensures dirs == old(dirs) && root == old(root)
    {
      ghost var start := loggers;
      SetupChannelsUnfold(loggers, cfg, NamedChannels);
      raised := SetupChannelLogger(cfg, Interactions);
      if raised.Some? { return; }
      SetupChannelsUnfold(loggers, cfg, NamedChannels[1..]);
      raised := SetupChannelLogger(cfg, Agents);
      if raised.Some? { return; }
      SetupChannelsUnfold(loggers, cfg, NamedChannels[2..]);
      raised := SetupChannelLogger(cfg, Workflows);
      if raised.Some? { return; }
      SetupChannelsUnfold(loggers, cfg, NamedChannels[3..]);
      raised := SetupChannelLogger(cfg, Tools);
      if raised.Some? { return; }
      SetupChannelsUnfold(loggers, cfg, NamedChannels[4..]);
      raised := SetupChannelLogger(cfg, Performance);
      if raised.Some? { return; }
      SetupChannelsUnfold(loggers, cfg, NamedChannels[5..]);
      raised := SetupChannelLogger(cfg, Security);
      if raised.Some? { return; }
      SetupChannelsUnfold(loggers, cfg, NamedChannels[6..]);
    }
  }

  /** One step of `SetupChannels`. */
  lemma SetupChannelsUnfold(loggers: map<Channel, LoggerState>, config: LoggingConfig, cs: seq<Channel>)
    ensures cs == [] ==> SetupChannels(loggers, config, cs) == (loggers, None)
    ensures cs != [] ==> var step := SetupChannel(loggers, config, cs[0]);
      SetupChannels(loggers, config, cs) ==
        if step.1.Some? then step else SetupChannels(step.0, config, cs[1..])
  {
  }

  lemma AddEight(s: set<string>, a: string, b: string, c: string, d: string, e: string, f: string, g: string,
                 h: string)
    ensures s + {a} + {b} + {c} + {d} + {e} + {f} + {g} + {h} == s + {a, b, c, d, e, f, g, h}
  {
  }

  lemma AllChannelDirs(logDir: string)
    ensures SetupDirs(logDir) == {logDir, ChannelDir(logDir, Interactions), ChannelDir(logDir, Agents),
      ChannelDir(logDir, Workflows), ChannelDir(logDir, Tools), ChannelDir(logDir, System),
      ChannelDir(logDir, Performance), ChannelDir(logDir, Security)}
  {
  }

  /** The channel names are distinct, so are their directories. */
  lemma ChannelDirInjective(logDir: string, c1: Channel, c2: Channel)
    ensures ChannelDir(logDir, c1) == ChannelDir(logDir, c2) ==> c1 == c2
  {
    var p := logDir + "/";
    if ChannelDir(logDir, c1) == ChannelDir(logDir, c2) {
      assert ChannelDir(logDir, c1)[|p|..] == c1.DirName();
      assert ChannelDir(logDir, c2)[|p|..] == c2.DirName();
    }
  }

  /** Every channel's directory is one setup makes. */
  lemma SetupDirsCover(logDir: string, c: Channel)
    ensures logDir in SetupDirs(logDir) && ChannelDir(logDir, c) in SetupDirs(logDir)
  {
    assert c in AllChannels;
  }

  /** A channel's sink writes `{ch}_{YYYY-MM-DD}.log` in the channel's directory. */
  lemma ChannelFileDated(logDir: string, c: Channel, d: Date)
    ensures DatedPath(ChannelFile(logDir, c), d) ==
      FilePath(ChannelDir(logDir, c), c.DirName() + "_" + FormatDate(d) + ".log")
  {
    DatedNameOfLogFile(c.DirName(), d);
  }

  lemma NamedChannelsDistinct()
    ensures forall i, j :: 0 <= i < j < |NamedChannels| ==> NamedChannels[i] != NamedChannels[j]
  {
  }

  /** Running `setup_logging` twice with a config whose levels resolve: the
      root logger ends as after one run (its old handlers are removed), but
      every enabled channel logger then holds its sink twice. */
  method SetupTwice(st: LoggingState, cfg: LoggingConfig) returns (first: Option<PyError>, second: Option<PyError>)
    requires LevelsResolve(cfg) && SetLevelByName(cfg.systemLogLevel).Ok?
    modifies st
    ensures first == None && second == None
    ensures st.root == LoggerState(SetLevelByName(cfg.systemLogLevel).value, old(st.root).propagate,
      [SystemSink(cfg, SetLevelByName(cfg.systemLogLevel).value), ConsoleHandler])
    ensures forall c :: c in NamedChannels ==> (LoggerOf(st.loggers, c) ==
      if cfg.Enabled(c) then
        LoggerState(ChannelLevel(cfg, c).value, false,
          LoggerOf(old(st.loggers), c).handlers + [ChannelSink(cfg, c), ChannelSink(cfg, c)])
      else LoggerOf(old(st.loggers), c))
  {
    NamedChannelsDistinct();
    ghost var start := st.loggers;
    first := st.SetupLogging(Some(cfg), map[]);
    SetupChannelsResolved(start, cfg, NamedChannels, Interactions);
    ghost var middle := st.loggers;
    second := st.SetupLogging(Some(cfg), map[]);
    SetupChannelsResolved(middle, cfg, NamedChannels, Interactions);
    assert middle == SetupChannels(start, cfg, NamedChannels).0;
    assert st.loggers == SetupChannels(middle, cfg, NamedChannels).0;
    forall c | c in NamedChannels
      ensures LoggerOf(st.loggers, c) ==
        if cfg.Enabled(c) then
          LoggerState(ChannelLevel(cfg, c).value, false,
            LoggerOf(start, c).handlers + [ChannelSink(cfg, c), ChannelSink(cfg, c)])
        else LoggerOf(start, c)
    {
      SetupChannelsTwice(start, cfg, c);
    }
  }

  lemma SetupChannelsTwice(loggers: map<Channel, LoggerState>, cfg: LoggingConfig, c: Channel)
    requires LevelsResolve(cfg)
    ensures var twice := SetupChannels(SetupChannels(loggers, cfg, NamedChannels).0, cfg, NamedChannels).0;
      LoggerOf(twice, c) ==
        if c in NamedChannels && cfg.Enabled(c) then
          LoggerState(ChannelLevel(cfg, c).value, false,
            LoggerOf(loggers, c).handlers + [ChannelSink(cfg, c), ChannelSink(cfg, c)])
        else LoggerOf(loggers, c)
  {
    NamedChannelsDistinct();
    var once := SetupChannels(loggers, cfg, NamedChannels).0;
    SetupChannelsResolved(loggers, cfg, NamedChannels, c);
    SetupChannelsResolved(once, cfg, NamedChannels, c);
  }
}
