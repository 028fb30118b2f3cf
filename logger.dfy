/** Log levels, their names, and the level gate of the structured logger
    (internal/logger/logger.go). Formatting and printing the JSON line is not modelled;
    an emitted entry is appended to the logger's output. */
module Logger {

  /** Go's `type LogLevel int`: any integer, of which 0 to 5 are named. */
  newtype LogLevel = int
  {
    /** The upper-case name of a defined level, "UNKNOWN" for any other value. */
    function String(): (s: string)
      ensures (TRACE <= this <= FATAL) <==> s != "UNKNOWN"
      ensures TRACE <= this <= FATAL ==> s == LevelNames[this as int]
    {
      match this
      case 0 => "TRACE"
      case 1 => "DEBUG"
      case 2 => "INFO"
      case 3 => "WARN"
      case 4 => "ERROR"
      case 5 => "FATAL"
      case _ => "UNKNOWN"
    }
  }

  const TRACE: LogLevel := 0
  const DEBUG: LogLevel := 1
  const INFO: LogLevel := 2
  const WARN: LogLevel := 3
  const ERROR: LogLevel := 4
  const FATAL: LogLevel := 5

  /** The names of the six levels, indexed by level. */
  const LevelNames: seq<string> := ["TRACE", "DEBUG", "INFO", "WARN", "ERROR", "FATAL"]

  /** Go's `unicode.ToUpper` on the characters that matter here: ASCII letters, and the two
      non-ASCII letters whose upper case is an ASCII letter (dotless i and long s). Every other
      character is kept; Go maps some of them to other non-ASCII characters, which never
      matter to ParseLogLevel. */
  function ToUpperChar(c: char): char
  {
    if 'a' <= c <= 'z' then (c as int - 32) as char
    else if c == '\U{0131}' then 'I'
    else if c == '\U{017F}' then 'S'
    else c
  }

  function ToUpper(s: string): (u: string)
    ensures |u| == |s|
    ensures forall i :: 0 <= i < |s| ==> u[i] == ToUpperChar(s[i])
  {
    if s == [] then [] else [ToUpperChar(s[0])] + ToUpper(s[1..])
  }

  /** Case-insensitive parse; "WARNING" is WARN and any unrecognised text is INFO. */
  function ParseLogLevel(level: string): (l: LogLevel)
    ensures TRACE <= l <= FATAL
    ensures ToUpper(level) in LevelNames ==> l.String() == ToUpper(level)
    ensures ToUpper(level) == "WARNING" ==> l == WARN
    ensures ToUpper(level) !in LevelNames && ToUpper(level) != "WARNING" ==> l == INFO
  {
    LevelOfName(ToUpper(level))
  }

  /** The level an upper-cased name stands for. */
  function LevelOfName(name: string): LogLevel
  {
    match name
    case "TRACE" => TRACE
    case "DEBUG" => DEBUG
    case "INFO" => INFO
    case "WARN" => WARN
    case "WARNING" => WARN
    case "ERROR" => ERROR
    case "FATAL" => FATAL
    case _ => INFO
  }

  /** Upper-casing an upper-cased string changes nothing. */
  lemma {:induction false} ToUpperIdempotent(s: string)
    ensures ToUpper(ToUpper(s)) == ToUpper(s)
  {
    if s != [] {
      ToUpperIdempotent(s[1..]);
    }
  }

  /** ParseLogLevel does not depend on letter case. */
  lemma ParseIgnoresCase(s: string, t: string)
    requires ToUpper(s) == ToUpper(t)
    ensures ParseLogLevel(s) == ParseLogLevel(t)
    ensures ParseLogLevel(ToUpper(s)) == ParseLogLevel(s)
  {
    ToUpperIdempotent(s);
  }

  /** A string without lower-case letters is its own upper case. */
  lemma {:induction false} ToUpperOfUpper(s: string)
    requires forall i :: 0 <= i < |s| ==> 'A' <= s[i] <= 'Z'
    ensures ToUpper(s) == s
  {
    if s != [] {
      ToUpperOfUpper(s[1..]);
    }
  }

  /** Round trip: the name of a defined level parses back to that level. */
  lemma ParseString(l: LogLevel)
    requires TRACE <= l <= FATAL
    ensures ParseLogLevel(l.String()) == l
  {
    var s := l.String();
    assert forall i :: 0 <= i < |s| ==> 'A' <= s[i] <= 'Z';
    ToUpperOfUpper(s);
  }

  /** What the logger prints for an entry, less its timestamp, fields and caller. */
  datatype LogEntry = LogEntry(level: string, message: string, component: string)

  class Logger {
    var level: LogLevel
    const component: string
    /** The entries printed so far. */
    var output: seq<LogEntry>

    constructor (level: LogLevel, component: string)
      ensures this.level == level && this.component == component && output == []
    {
      this.level := level;
      this.component := component;
      output := [];
    }

    /** The gate of `log`: a message is printed exactly when its level reaches the logger's. */
    predicate Enabled(l: LogLevel)
      reads this
    {
      !(l < level)
    }

    /** Go's `(*Logger).log`: print the entry if the level passes the gate; `exit` reports
        the process exit that follows a printed FATAL entry. */
    method Log(l: LogLevel, message: string) returns (exit: bool)
      modifies this`output
      ensures output == if l >= level then old(output) + [LogEntry(l.String(), message, component)]
                        else old(output)
      ensures exit <==> l >= level && l == FATAL
    {
      exit := false;
      if l < level {
        return;
      }
      output := output + [LogEntry(l.String(), message, component)];
      exit := l == FATAL;
    }
  }

  /** The package-level `globalLogger` variable and the functions that use it. */
  class Registry {
    var global: Logger?

    constructor ()
      ensures global == null
    {
      global := null;
    }

    /** Install a fresh logger; the previous one, if any, is dropped. */
    method Init(level: LogLevel, component: string)
      modifies this
      ensures global != null && fresh(global)
      ensures global.level == level && global.component == component && global.output == []
    {
      global := new Logger(level, component);
    }

    /** Change the installed logger's level; without one, do nothing. */
    method SetLevel(level: LogLevel)
      modifies global
      ensures global == old(global)
      ensures global != null ==> global.level == level && global.output == old(global.output)
    {
      if global != null {
        global.level := level;
      }
    }

    /** The installed logger's level, INFO when there is none. */
    function GetLevel(): (l: LogLevel)
      reads this, global
      ensures global == null ==> l == INFO
      ensures global != null ==> l == global.level
    {
      if global != null then global.level else INFO
    }

    /** Trace, Debug, Info, Warn, Error and Fatal: each logs at its own level through the
        installed logger, and does nothing when none is installed. */
    method Emit(l: LogLevel, message: string) returns (exit: bool)
      modifies global
      ensures global == old(global)
      ensures global == null ==> !exit
      ensures global != null ==> global.level == old(global.level)
      ensures global != null ==> (global.output ==
        if old(global.Enabled(l)) then old(global.output) + [LogEntry(l.String(), message, global.component)]
        else old(global.output))
      ensures global != null ==> (exit <==> old(global.Enabled(l)) && l == FATAL)
    {
      exit := false;
      if global == null {
        return;
      }
      exit := global.Log(l, message);
    }
  }
}
