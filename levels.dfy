/** The numeric severity levels of Python's `logging` module and the two
    lookups the subsystem uses: `getattr(logging, NAME)` and
    `logging.getLevelName(level)`. */
module Levels {
  import opened Common
  import opened Text

  const NOTSET := 0
  const DEBUG := 10
  const INFO := 20
  const WARNING := 30
  const ERROR := 40
  const CRITICAL := 50

  /** The int a level-named attribute of the `logging` module holds, or None
      when the module has no int attribute of that name (case-sensitive). */
  function LevelByName(name: string): Option<int> {
    if name == "CRITICAL" || name == "FATAL" then Some(CRITICAL)
    else if name == "ERROR" then Some(ERROR)
    else if name == "WARNING" || name == "WARN" then Some(WARNING)
    else if name == "INFO" then Some(INFO)
    else if name == "DEBUG" then Some(DEBUG)
    else if name == "NOTSET" then Some(NOTSET)
    else None
  }

  /** Upper-case attributes of the `logging` module that are not levels:
      `getattr` finds them, and `Logger.log` then refuses the non-int level. */
  predicate IsNonLevelAttribute(name: string) {
    name == "BASIC_FORMAT" || name == "_STYLES"
  }

  /** `logging.getLevelName(level)` for an int level. */
  function GetLevelName(level: int): string {
    if level == CRITICAL then "CRITICAL"
    else if level == ERROR then "ERROR"
    else if level == WARNING then "WARNING"
    else if level == INFO then "INFO"
    else if level == DEBUG then "DEBUG"
    else if level == NOTSET then "NOTSET"
    else "Level " + IntToString(level)
  }

  predicate IsStandardLevel(level: int) {
    level in {NOTSET, DEBUG, INFO, WARNING, ERROR, CRITICAL}
  }

  /** Naming a standard level and looking the name up again gives the level
      back; every other number is named "Level n", which looks up nothing. */
  lemma LevelNameRoundTrip(level: int)
    ensures IsStandardLevel(level) <==> LevelByName(GetLevelName(level)) == Some(level)
    ensures !IsStandardLevel(level) ==> LevelByName(GetLevelName(level)) == None
  {
    if !IsStandardLevel(level) {
      var name := GetLevelName(level);
      assert name[0] == 'L';
    }
  }
}
