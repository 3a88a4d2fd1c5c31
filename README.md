# DeerFlow logging core, modelled in Dafny

This project models DeerFlow's structured logging subsystem, the package `src/logging`.

**What happens when logging is set up**
- `setup_logging` creates one directory per channel under a log directory.
- It gives the root logger a system file handler and a console handler.
- It attaches a dated, self-pruning file handler to each enabled named channel:
  - `deer_flow.interactions`
  - `deer_flow.agents`
  - `deer_flow.workflows`
  - `deer_flow.tools`
  - `deer_flow.performance`
  - `deer_flow.security`

**What happens when something is logged**
- `InteractionLogger` turns interactions, agent activities, workflow events, tool usages, performance metrics and security events into log records on those channels.
- Each event carries a fresh event id and the logger's session id.
- Formatters turn each record into one JSON mapping.
- The daily file handler writes it to `{stem}_{YYYY-MM-DD}{suffix}`.
- When the day changes, the handler moves to a new file and deletes the oldest files beyond `max_files`.

**Modules**
- `Common`: Python values as the formatters see them, `Option`/`Result`, the exceptions the code can raise, and the seven channels.
- `Text`: decimal rendering, Python's `int()` on a string, and ASCII case mapping.
- `Clock`: `date`/`datetime` and their renderings: `%Y-%m-%d`, `%Y-%m-%d %H:%M:%S` and `isoformat()`.
- `Levels`: the standard level table of Python's `logging` module, `getLevelName`, and the module attributes that are not levels.
- `Handlers` (imperative):
  - `DateRotatingFileHandler` is a class over a `Directory` object; the directory maps file names to modification time and lines.
  - Cleanup lists the matching files, sorts an `array` of them in place by modification time, and deletes the oldest in a loop. A deletion may fail; failures are ignored.
  - `emit` rotates on a date change, then appends.
- `Formatters` (imperative): the structured, interaction and agent formatters.
  - Each is a method that builds its mapping step by step. The structured formatter has a loop over the record's attributes.
  - Each method is proved equal to a specification function. The lemmas about that function state which keys appear and which value wins.
- `Events`:
  - The event dataclasses and `asdict`.
  - The derived fields: token totals, and the levels and messages of workflow, tool and security events.
  - `InteractionLogger`, a class whose identifier source and channel log are objects it updates.
  - The process-wide logger slot and the convenience functions.
  - The `timing` context manager and the two decorators.
- `Config`:
  - `LoggingConfig`, its defaults and `from_env`.
  - `setup_logging`, as a `LoggingState` class holding the created directories, the root logger and the channel loggers.
  - Handler creation is recorded as sink descriptions.

**Behaviour the model makes explicit**
- **Interaction output is keyed by the event.** The interaction formatter merges the event's `asdict` over its fixed head. So the event's ISO timestamp replaces the formatter's `%Y-%m-%d %H:%M:%S` one. The event's session and event ids also land in the output. See `Events.InteractionOutputEvent`.
- **The agents channel uses the structured formatter.** Setup attaches the structured formatter to `deer_flow.agents`, not `AgentFormatter`. So an agent activity comes out with the structured formatter's keys plus the record's custom attributes. See `Events.AgentChannelMessage` and `Events.AgentChannelData`.
- **Repeated setup duplicates channel handlers.** Calling `setup_logging` twice leaves each enabled channel logger with two identical file handlers. Only the root logger is cleared between runs. See `Config.SetupTwice`.
- **Unusual severities.** `getattr(logging, severity.upper(), INFO)` returns a non-integer for `BASIC_FORMAT` or `_STYLES`, and `Logger.log` then raises `TypeError`. See `Events.SecurityLevelRaises`.
- **Negative `max_files`.** A negative value makes cleanup delete the oldest files anyway. See Findings.

## Model

| member | source | states |
|---|---|---|
| Text.ParseIntRoundTrip | src/logging/config.py:67 | `int()` applied to the decimal text of any integer gives back that integer |
| Text.LowerIdempotent | src/logging/config.py:58 | lower-casing a lower-cased value changes nothing |
| Text.LowerIsTrue | src/logging/config.py:58 | a value lower-cases to `"true"` exactly when it is `true` spelt in any mix of cases |
| Text.UpperIdempotent | src/logging/interaction_logger.py:308 | upper-casing an upper-cased value changes nothing |
| Text.CaseIgnored | src/logging/interaction_logger.py:308 | texts differing only in letter case lower-case alike and upper-case alike |
| Clock.FormatDateRoundTrip | src/logging/handlers.py:51 | the `%Y-%m-%d` text of a date is ten characters and reads back as that date |
| Clock.FormatDateInjective | src/logging/handlers.py:51 | two different days never share a date text |
| Clock.PlainStartsWithDate | src/logging/formatters.py:51 | the `%Y-%m-%d %H:%M:%S` text is 19 characters: the date text, a space, then the time |
| Clock.IsoStartsWithDate | src/logging/formatters.py:20 | `isoformat()` is 19 characters, or 26 with microseconds, and starts with the date text and a `T` |
| Levels.LevelNameRoundTrip | src/logging/formatters.py:21 | a level's name looks up to that level exactly when the level is standard; a non-standard level's name is no level |
| Handlers.LastDot | src/logging/handlers.py:52-53 | the index of the last dot of a name, or -1; no dot follows it |
| Handlers.StemSuffixSplit | src/logging/handlers.py:52-53 | stem followed by suffix is the name; the suffix is empty or a dot with no further dot |
| Handlers.ChannelBaseName | src/logging/handlers.py:52-53 | a dot-free stem plus `.log` splits into that stem and `.log` |
| Handlers.DatedNameOfLogFile | src/logging/handlers.py:46-55 | the dated name of `{stem}.log` for day d is `{stem}_{d}.log` |
| Handlers.DatedNameInjective | src/logging/handlers.py:46-55 | two days never give the same dated file name |
| Handlers.DatedNameMatches | src/logging/handlers.py:75-76 | every dated file of a `.log` base matches the cleanup pattern `{stem}_*.log` |
| Handlers.WrittenAppends | src/logging/handlers.py:70 | writing a record creates the file if needed, appends exactly that line, sets its mtime, and leaves other files alone |
| Handlers.RemovalCount | src/logging/handlers.py:78-83 | cleanup removes something exactly when the limit is positive and exceeded, and then leaves exactly `max_files` |
| Handlers.RemovalCountMatchesSource | src/logging/handlers.py:78-83 | for non-negative limits the corrected count equals the count of `log_files[:-max_files]` as written |
| Handlers.NegativeLimitRemovesOldest | src/logging/handlers.py:83 | with a negative limit the code as written deletes `min(-max_files, n)` files, where the intended count is none |
| Handlers.PruneSelectionMatchesSource | src/logging/handlers.py:78-83 | for every non-negative limit the handler's prune selection is exactly the selection `log_files[:-max_files]` makes as written |
| Handlers.NegativeLimitSelections | src/logging/handlers.py:78-83 | for a negative limit and any matching file the selection as written removes something, the corrected one nothing |
| Handlers.PruneKeeps | src/logging/handlers.py:72-92 | a prune selection keeps every non-matching file and removes only matching ones; exactly `max_files` matching files stay when a positive limit was exceeded, otherwise all of them |
| Handlers.SortByMtime | src/logging/handlers.py:82 | the in-place sort leaves the array ordered by modification time and a permutation of its old contents |
| Handlers.ListMatching | src/logging/handlers.py:75-76 | the glob listing holds each matching file name exactly once and nothing else |
| Handlers.SelectForRemoval | src/logging/handlers.py:78-83 | the names to delete are distinct and are the oldest matching files beyond the limit |
| Handlers.DateRotatingFileHandler.constructor | src/logging/handlers.py:22-44 | the new handler has today's date, opens today's dated file, and prunes the directory around it, ignoring failed deletions |
| Handlers.DateRotatingFileHandler.CleanupOldFiles | src/logging/handlers.py:72-92 | the directory loses exactly the selected oldest files whose deletion did not fail |
| Handlers.DateRotatingFileHandler.Write | src/logging/handlers.py:70 | the record's line is appended to the current dated file, opening it if the stream was closed |
| Handlers.DateRotatingFileHandler.Emit | src/logging/handlers.py:57-70 | on the same day the line goes to the current file; on a new day the handler switches to the new dated file, prunes, then writes there |
| Handlers.RotationBound | src/logging/handlers.py:58-91 | after any rotation under a positive limit whose deletions succeed, at most `max_files + 1` matching files remain |
| Handlers.FirstFile | tests/unit/logging/test_logging_system.py:64-75 | a handler started on an empty directory deletes nothing |
| Handlers.SingleFileKept | src/logging/handlers.py:78-79 | a directory with a single matching file is left alone under a limit of five |
| Handlers.StartOnEmpty | tests/unit/logging/test_logging_system.py:64-75 | on an empty directory the new handler leaves exactly today's empty `{stem}_{date}.log` |
| Handlers.DayBoundary | src/logging/handlers.py:57-70 | one record before and one after a date change land in two different dated files, each holding its own record |
| Formatters.StructuredFormat | src/logging/formatters.py:17-43 | the mapping built step by step equals the structured specification: fixed fields, exception, then non-reserved attributes |
| Formatters.HeadKeys | src/logging/formatters.py:19-31 | the fixed head has exactly the seven fixed keys, plus `exception` when the record carries one |
| Formatters.StructuredKeysPresent | src/logging/formatters.py:19-27 | every one of the seven fixed keys is in the output |
| Formatters.StructuredField | src/logging/formatters.py:19-41 | a fixed key holds the record's non-reserved attribute of that name if there is one, else the fixed value |
| Formatters.StructuredModule | src/logging/formatters.py:24 | `module` is always the record's module, since `module` is reserved |
| Formatters.StructuredException | src/logging/formatters.py:30-31 | `exception` is present exactly when the record has exception info or an `exception` attribute; the formatted text is used if no attribute overrides it |
| Formatters.StructuredCopies | src/logging/formatters.py:34-41 | every non-reserved attribute is copied with its own value |
| Formatters.StructuredCopy | src/logging/formatters.py:34-41 | a given non-reserved attribute is copied with its own value |
| Formatters.ReservedFixedKeys | src/logging/formatters.py:35-40 | `module` is the only fixed key that is also reserved |
| Formatters.StructuredKeysBound | src/logging/formatters.py:17-41 | the output holds no reserved key but `module`, and no key beyond the fixed ones, `exception` and the non-reserved attributes |
| Formatters.StructuredBasicExample | tests/unit/logging/test_logging_system.py:104-119 | a plain INFO record from `test.logger` gives level INFO, its logger, message and line, and a timestamp |
| Formatters.StructuredCustomExample | tests/unit/logging/test_logging_system.py:121-135 | attributes set on the record appear in the output with their values |
| Formatters.UpdateWithDict | src/logging/formatters.py:64 | `dict.update` with a dict keeps every key of both, takes the dict's value for its keys and keeps the old value elsewhere |
| Formatters.UpdateWithPairs | src/logging/formatters.py:64 | `dict.update` with a list of string-keyed pairs assigns the pairs one after the other, later ones winning |
| Formatters.ApplyStringPairs | src/logging/formatters.py:64 | `dict.update` with a list of string-keyed pairs assigns them in order |
| Formatters.Carry | src/logging/formatters.py:67-68 | copying an attribute under a key adds that key exactly when the attribute exists, with its value, and changes nothing else |
| Formatters.InteractionFormat | src/logging/formatters.py:49-78 | the mapping built step by step equals the interaction specification, including the TypeError a bad `interaction_data` raises |
| Formatters.InteractionHeadDefaults | src/logging/formatters.py:51-60 | the head has its five keys; each takes the record's attribute or falls back to `unknown`, `general` or `anonymous` |
| Formatters.InteractionOptional | src/logging/formatters.py:66-76 | `duration_ms`, `agent` and `tool` are added exactly when `duration`, `agent_name` and `tool_name` exist, with their values |
| Formatters.InteractionDefaults | src/logging/formatters.py:54-64 | without `interaction_data` formatting succeeds and every head key keeps its head value |
| Formatters.InteractionDataWins | src/logging/formatters.py:62-64 | a dict of interaction data is merged over the head and its keys win; a number, boolean or None raises TypeError |
| Formatters.InteractionDataKey | src/logging/formatters.py:62-64 | a key of the interaction data outside the optional three ends with the data's value |
| Formatters.InteractionHeadKey | src/logging/formatters.py:54-64 | a head key the data does not mention ends with the head's value |
| Formatters.AgentFormat | src/logging/formatters.py:84-108 | the mapping built step by step equals the agent specification, including the TypeError a bad `agent_data` raises |
| Formatters.AgentHeadDefaults | src/logging/formatters.py:86-94 | the head has its five keys; each takes the record's attribute or falls back to `unknown` or `activity` |
| Formatters.AgentOptional | src/logging/formatters.py:100-106 | `llm_model` and `tokens_used` are added exactly when those attributes exist, with their values |
| Formatters.AgentDefaults | src/logging/formatters.py:88-98 | without `agent_data` formatting succeeds and every head key keeps its head value |
| Formatters.AgentDataWins | src/logging/formatters.py:96-98 | a dict of agent data is merged over the head and its keys win; a number, boolean or None raises TypeError |
| Formatters.AgentDataKey | src/logging/formatters.py:96-98 | a key of the agent data outside the optional two ends with the data's value |
| Formatters.AgentHeadKey | src/logging/formatters.py:88-98 | a head key the data does not mention ends with the head's value |
| Events.TotalTokensRule | src/logging/interaction_logger.py:171 | the total exists exactly when both token counts are given and non-zero, and is then their sum |
| Events.WorkflowMessageParts | src/logging/interaction_logger.py:221-224 | the message is `Workflow t.n: s`, followed by ` - error` exactly when the error is non-empty; the level is ERROR exactly for status `error` |
| Events.ToolMessageParts | src/logging/interaction_logger.py:258-261 | the message names the tool and the agent, or `unknown`, followed by ` - Error: e` exactly when the error is non-empty; failure gives ERROR |
| Events.SecurityLevelOfName | src/logging/interaction_logger.py:308 | a standard level's name, in upper or lower case, selects that level |
| Events.SecurityLevelIgnoresCase | src/logging/interaction_logger.py:308 | a severity, its lower-case and its upper-case form select the same level or raise the same error |
| Events.SecurityLevelFallback | src/logging/interaction_logger.py:308 | a severity that names no attribute of `logging` falls back to INFO |
| Events.SecurityLevelRaises | src/logging/interaction_logger.py:308-309 | the severities `basic_format` and `_styles` name non-integers, and logging then raises TypeError |
| Events.InteractionDictFields | src/logging/interaction_logger.py:25-39 | `asdict` of an interaction event holds its timestamp, session id and event id |
| Events.InteractionDictLacks | src/logging/interaction_logger.py:25-39 | `asdict` of an interaction event has no `user_id`, `interaction_type` or `agent` key, so those head keys survive the merge |
| Events.InteractionRecordAttrs | src/logging/interaction_logger.py:139-143 | the interaction record carries the event dict, duration, agent name, interaction type and session id |
| Events.InteractionOutputEvent | src/logging/interaction_logger.py:118-145 | the formatted interaction carries the event's ISO timestamp, session id and event id |
| Events.InteractionOutputCall | src/logging/interaction_logger.py:139-145 | the formatted interaction carries the event type, user `anonymous`, the agent and the duration |
| Events.AgentDictFields | src/logging/interaction_logger.py:42-57 | `asdict` of an activity holds its timestamp, session id, event id and token total |
| Events.AgentDictLacks | src/logging/interaction_logger.py:42-57 | `asdict` of an activity has no `agent` or `action` key |
| Events.AgentRecordAttrs | src/logging/interaction_logger.py:186-191 | the agent record carries the activity dict, agent name, action, model and token total |
| Events.AgentOutputEvent | src/logging/formatters.py:88-98 | the agent formatter's output of an activity record carries its timestamp, ids and token total |
| Events.AgentOutputCall | src/logging/formatters.py:88-106 | the agent formatter's output carries the agent, action, model and token total |
| Events.AgentsLoggerName | src/logging/interaction_logger.py:100 | the agents channel's logger is `deer_flow.agents` |
| Events.AgentRecordKeys | src/logging/interaction_logger.py:186-191 | the agent record's custom attributes are exactly the six the method sets |
| Events.AgentChannelMessage | src/logging/interaction_logger.py:179-184 | on the agents channel the output message is `Agent a performed t` from logger `deer_flow.agents` |
| Events.AgentChannelData | src/logging/interaction_logger.py:186-191 | on the agents channel the output carries the session id, the activity dict and the token total |
| Events.ToolRecordAttrs | src/logging/interaction_logger.py:271-274 | the tool record's custom attributes are exactly session id, tool name, agent name and the usage dict |
| Events.ToolsLoggerName | src/logging/interaction_logger.py:265 | the tools channel's logger is `deer_flow.tools` |
| Events.ToolLevelName | src/logging/interaction_logger.py:258 | a successful usage is logged as INFO, a failed one as ERROR |
| Events.ToolOutputLevel | src/logging/interaction_logger.py:258-269 | the formatted tool record's level is INFO or ERROR by success |
| Events.ToolOutputMessage | src/logging/interaction_logger.py:259-269 | the formatted tool record carries the tool message and logger `deer_flow.tools` |
| Events.ToolOutputData | src/logging/interaction_logger.py:271-274 | the formatted tool record carries the session id and the usage dict |
| Events.IdText | src/logging/interaction_logger.py:117 | an event id is a non-empty text |
| Events.IdTextInjective | src/logging/interaction_logger.py:117 | different draws give different ids |
| Events.IdSource.Fresh | src/logging/interaction_logger.py:117 | each draw returns the id of the next counter value and advances the counter |
| Events.ChannelLog.Emit | src/logging/interaction_logger.py:145 | handing a record to a channel appends exactly it |
| Events.InteractionLogger.constructor | src/logging/interaction_logger.py:94-104 | a truthy session id is kept without drawing; otherwise a fresh id is drawn |
| Events.InteractionLogger.LogInteraction | src/logging/interaction_logger.py:106-146 | returns a fresh event id and hands exactly one interaction record for that event to the interactions channel; the event's timestamp and the record's creation time are two clock readings |
| Events.InteractionLogger.LogAgentActivity | src/logging/interaction_logger.py:148-194 | returns a fresh event id and hands exactly one agent record for that activity, with its token total, to the agents channel; event time and record time are two readings |
| Events.InteractionLogger.LogWorkflowEvent | src/logging/interaction_logger.py:196-231 | returns a fresh event id and logs exactly one workflow event at its level with its message |
| Events.InteractionLogger.LogToolUsage | src/logging/interaction_logger.py:233-277 | returns a fresh event id and hands exactly one tool record, at INFO or ERROR, to the tools channel; event time and record time are two readings |
| Events.InteractionLogger.LogPerformanceMetric | src/logging/interaction_logger.py:279-296 | logs exactly one INFO metric emission with the name, value, unit and metadata |
| Events.InteractionLogger.LogSecurityEvent | src/logging/interaction_logger.py:298-319 | a severity resolving to a level logs one security emission; one resolving to a non-integer raises and logs nothing |
| Events.InteractionLogger.Timing | src/logging/interaction_logger.py:321-329 | the body's outcome passes through unchanged, and one `ms` metric of the elapsed time is logged whether it returned or raised |
| Events.TimingMetricShape | src/logging/interaction_logger.py:287-296 | a timing metric is an INFO performance emission with message `Performance metric n: vms`, its name and unit `ms` |
| Events.ReplacesKeeps | src/logging/interaction_logger.py:339-340 | the slot is replaced exactly when a truthy session id differs from the current one |
| Events.GlobalSlot.constructor | src/logging/interaction_logger.py:332 | the process starts with no global logger |
| Events.GlobalSlot.GetInteractionLogger | src/logging/interaction_logger.py:336-341 | the slot is kept when nothing replaces it, otherwise refilled with a fresh logger for the given or a drawn session id |
| Events.GlobalSlot.LogInteraction | src/logging/interaction_logger.py:344-364 | the current logger is kept unless the session id replaces it, then a fresh logger with the given or a drawn id is current; through it returns a fresh id and hands one interaction record to its channel, stamped with its session id |
| Events.GlobalSlot.LogAgentActivity | src/logging/interaction_logger.py:367-391 | the current logger is kept unless the session id replaces it, then a fresh logger with the given or a drawn id is current; through it returns a fresh id and hands one agent record to its channel, stamped with its session id |
| Events.GlobalSlot.LogWorkflowEvent | src/logging/interaction_logger.py:394-414 | the current logger is kept unless the session id replaces it, then a fresh logger with the given or a drawn id is current; through it returns a fresh id and logs one workflow event, stamped with its session id |
| Events.GlobalSlot.LogToolUsage | src/logging/interaction_logger.py:417-437 | the current logger is kept unless the session id replaces it, then a fresh logger with the given or a drawn id is current; through it returns a fresh id and hands one tool record to its channel, stamped with its session id |
| Events.GlobalSlot.LoggedInteraction | src/logging/interaction_logger.py:440-478 | the call's outcome passes through; a return or an ordinary exception logs exactly one call event through the current logger, or a new one when there is none; anything else logs nothing |
| Events.GlobalSlot.LoggedAgentActivity | src/logging/interaction_logger.py:481-517 | the call's outcome passes through; a return or an ordinary exception logs exactly one activity through the current logger, or a new one when there is none; anything else logs nothing |
| Events.CallEventShape | src/logging/interaction_logger.py:451-475 | a decorated call is logged as `function_call`, or as `function_error` with the exception text, with the function name and duration |
| Events.CallActivityShape | src/logging/interaction_logger.py:492-514 | a decorated activity keeps its type, or gets `_error` appended, and its metadata records success and function |
| Events.SessionSwitch | tests/unit/logging/test_logging_system.py:285-297 | asking twice for `session-123` gives the same logger; asking for `session-456` then gives a different one |
| Events.DecoratedCallKeepsSession | src/logging/interaction_logger.py:443-461 | a decorated call after `get_interaction_logger("session-123")` logs its event with session `session-123` |
| Config.DefaultConfigValues | src/logging/config.py:18-51 | by default logs go to `logs`, 30 files are kept, and every channel is enabled at INFO |
| Config.EnvFlagRule | src/logging/config.py:58 | a flag is on exactly when its variable is unset or spells `true` in any case |
| Config.FromEnvEmpty | src/logging/config.py:53-70 | with no variables set `from_env` gives the default configuration |
| Config.FromEnvPassThrough | src/logging/config.py:53-70 | `from_env` fails with ValueError exactly when the file count is no integer; otherwise every field is its variable or default |
| Config.FromEnvMaxFiles | src/logging/config.py:67 | a file count written as an integer's text is read back as that integer |
| Config.FromEnvExample | tests/unit/logging/test_logging_system.py:44-58 | the test's variables give `/tmp/test_logs`, interactions off, level DEBUG and 7 files |
| Config.SetLevelByName | src/logging/config.py:93 | setting a level by name succeeds exactly for a standard level name |
| Config.SetupChannel | src/logging/config.py:125-139 | one channel's setup changes only that channel's logger, and on an error changes nothing |
| Config.SetupChannelsResolved | src/logging/config.py:116-122 | when all levels resolve, every enabled channel gets its level, no propagation and one more file sink; others are untouched |
| Config.SetupChannelsStops | src/logging/config.py:116-122 | a level that fails to resolve raises and leaves that channel and every later one untouched |
| Config.RemoveFirst | src/logging/config.py:96-97 | removing a handler drops one occurrence of it and keeps the rest |
| Config.LoggingState.constructor | src/logging/config.py:92 | the process starts with the root logger at WARNING, propagating, without handlers |
| Config.LoggingState.ClearRoot | src/logging/config.py:95-97 | after the loop the root logger has no handlers and nothing else changed |
| Config.LoggingState.SetupChannelLogger | src/logging/config.py:125-139 | the loggers are exactly as one channel's setup specifies |
| Config.LoggingState.SetupLogging | src/logging/config.py:73-122 | a failing `from_env` changes nothing; otherwise the directories are made, then the root is configured or the error raised, then the channels are set up in order |
| Config.LoggingState.MakeDirs | src/logging/config.py:78-89 | the log directory and all seven channel directories exist afterwards |
| Config.LoggingState.MakeDir | src/logging/config.py:80 | one directory is added and nothing else changes |
| Config.LoggingState.SetupRoot | src/logging/config.py:92-114 | an unresolvable system level raises and leaves the root alone; otherwise the root has that level and exactly the system and console handlers |
| Config.LoggingState.SetupChannelLoggers | src/logging/config.py:116-122 | the loggers are exactly as the six channel setups in sequence specify |
| Config.AllChannelDirs | src/logging/config.py:78-89 | the created directories are the log directory and its seven channel sub-directories |
| Config.ChannelDirInjective | src/logging/config.py:83-89 | two channels never share a directory |
| Config.SetupDirsCover | src/logging/config.py:78-89 | the log directory and each channel's directory are among those created |
| Config.ChannelFileDated | src/logging/config.py:133-136 | a channel's file for day d is `{dir}/{channel}/{channel}_{d}.log` |
| Config.NamedChannelsDistinct | src/logging/config.py:116-122 | the six channels are set up once each |
| Config.SetupTwice | src/logging/config.py:95-122 | a second setup gives the same root but leaves each enabled channel with two identical file handlers |
| Config.SetupChannelsTwice | src/logging/config.py:116-122 | running the channel setups twice adds each enabled channel's sink twice and leaves the rest alone |

## Left out

- Files, streams and the clock are not real. The directory is a map from names to lines; each clock reading is a parameter; a failed deletion is a set given by the caller.
- Concurrency and the logging module's locks are not modelled.
- JSON text is not modelled: `json.dumps`, `ensure_ascii=False` and `indent=2` are left out. The model stops at the mapping that would be serialised.
- The `logging` dispatch is not modelled: logger level filtering, handler level filtering and propagation. Channel setup records levels, `propagate` and sinks; a log call appends its emission to a log object.
- Handler objects are not built by `setup_logging`: setup records `FileSink`/`ConsoleSink` descriptions, and handler behaviour is modelled separately in `Handlers`.
- The console handler's `logging.Formatter` text format is not modelled.
- File paths are joined as `dir + "/" + name`, without normalisation.
- `mkdir` is assumed to succeed whenever it is called.
- Case mapping is ASCII only, and `int()` parsing covers ASCII digits, spaces and underscores.
- Floats are exact reals in the model; their text is supplied alongside the value. Millisecond durations are computed on those reals.
- `record.getMessage()` and `formatException` are modelled as fields of the record, not computed from `msg`/`args`/`exc_info`.
- `taskName` and other attributes newer Python versions add to every record are not modelled. They would be copied by the structured formatter like any other non-reserved attribute.
- `Formatters.UpdateWith`: the forms of `dict.update` whose effect on key order or non-string keys the model does not track (non-string keys, two-key dicts used as pairs, arbitrary iterables) give `Beyond`.
- `uuid.uuid4()` is modelled as a counter drawing distinct ids (`Events.IdText`); the 128-bit random format is not modelled.
- Other `logging` attributes a configured level can name (functions, flags such as `raiseExceptions`) are treated as missing attributes.
- Records built inside `Logger.log`/`Logger.info` are not modelled: workflow, performance and security emissions stay `Logged` values. So their caller-frame fields (module, function, line) are not modelled.
- Handlers.SelectForRemoval: chooses with the corrected count, so for a negative `max_files` it selects nothing where the code as written selects the oldest `min(-max_files, n)` files (see Findings; `Handlers.PruneSelectionMatchesSource` shows both agree for every other limit).
- Handlers.PruneKeeps: states what survives under the corrected count; for a negative `max_files` the code as written keeps fewer files.
- Handlers.DateRotatingFileHandler.constructor: prunes with the corrected count, so a negative `max_files` deletes nothing here.
- Handlers.DateRotatingFileHandler.CleanupOldFiles: prunes with the corrected count, so a negative `max_files` deletes nothing here.
- Handlers.DateRotatingFileHandler.Emit: the cleanup on a new day prunes with the corrected count, so a negative `max_files` deletes nothing here.
- Config.FromEnvExample: states only the four fields the test checks.
- `AgentFormatter` is never attached by `setup_logging`. It is modelled as a formatter on its own; the agents channel's actual output is the structured formatter's.
- test_file_rotation is not encoded. It forces `current_date` to a past day, so the new file it checks for is never created. The rotation it means to test is `Handlers.DayBoundary`.
- `src/workflow.py`, `src/server/prompt_request.py` and `src/logging/__init__.py` are not part of this model. They are callers and re-exports.

## Findings

| source | as written | input that shows it | evidently intended | confidence | as-written member | corrected member |
|---|---|---|---|---|---|---|
| src/logging/handlers.py:78-83 | with `max_files` negative, `len(log_files) <= max_files` is false, and `log_files[:-max_files]` takes the oldest `-max_files` files, which are then deleted | `max_files = -2` with three matching files: the two oldest are deleted | a non-positive limit keeps every file: nothing is deleted unless the limit is positive and exceeded | not executed | Handlers.RemovalCountAsWritten | Handlers.RemovalCount |
