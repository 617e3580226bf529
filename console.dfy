/** The function console: a level filter against the configured `LOG_LEVEL`, the shape of
    one emitted line, and the debug console that keeps every emitted line in order. */
module Console {
  import opened Wrappers
  import opened JsString
  import Js
  import JsonStrings

  datatype LogLevel = DEBUG | INFO | WARN | ERROR

  function LevelName(level: LogLevel): string {
    match level
    case DEBUG => "DEBUG"
    case INFO => "INFO"
    case WARN => "WARN"
    case ERROR => "ERROR"
  }

  /** The numeric rank of each level. */
  function Rank(level: LogLevel): nat {
    match level
    case DEBUG => 0
    case INFO => 1
    case WARN => 2
    case ERROR => 3
  }

  /** The rank table looked up by name; None for a name that is not a level. */
  function RankOfName(name: string): (r: Option<nat>)
    ensures r.Some? <==> exists level :: LevelName(level) == name
    ensures forall level :: LevelName(level) == name ==> r == Some(Rank(level))
  {
    if name == "DEBUG" then assert LevelName(DEBUG) == name; Some(0)
    else if name == "INFO" then assert LevelName(INFO) == name; Some(1)
    else if name == "WARN" then assert LevelName(WARN) == name; Some(2)
    else if name == "ERROR" then assert LevelName(ERROR) == name; Some(3)
    else None
  }

  /** The rank of the configured level: an unset or empty `LOG_LEVEL` reads as `debug`,
      the name is upper-cased, and a name that is not a level counts as rank 0. */
  function ConfigRank(logLevel: Option<string>): nat {
    var name := if logLevel.None? || logLevel.value == "" then "debug" else logLevel.value;
    RankOfName(ToUpperAscii(name)).GetOr(0)
  }

  /** Whether a message at this level is emitted under the configured level. */
  predicate ShouldLog(logLevel: Option<string>, level: LogLevel) {
    Rank(level) >= ConfigRank(logLevel)
  }

  /** The five console methods; `log` is a second name for the INFO level. */
  datatype Method = Debug | Info | Log | Warn | Error

  function LevelOf(m: Method): LogLevel {
    match m
    case Debug => DEBUG
    case Info => INFO
    case Log => INFO
    case Warn => WARN
    case Error => ERROR
  }

  /** The text of one parameter: strings as they are, objects through `inspect`, other
      values as `String(v)`. At INFO level the parameter reaches `join` uncoloured, so
      null and undefined join as the empty string. */
  function ParamText(level: LogLevel, p: Js.Value, inspect: Js.Value -> string): string {
    match p
    case Str(s) => s
    case Arr(_) => inspect(p)
    case Obj(_) => inspect(p)
    case Undefined => if level == INFO then "" else "undefined"
    case Null => if level == INFO then "" else "null"
    case Bool(b) => if b then "true" else "false"
    case Num(n) => NumberToString(n)
  }

  function ParamTexts(level: LogLevel, params: seq<Js.Value>, inspect: Js.Value -> string): (r: seq<string>)
    ensures |r| == |params|
    ensures forall i :: 0 <= i < |params| ==> r[i] == ParamText(level, params[i], inspect)
  {
    if params == [] then [] else [ParamText(level, params[0], inspect)] + ParamTexts(level, params[1..], inspect)
  }

  /** One line: the time, the level name padded to five columns, the category in
      brackets, and the parameters joined by single spaces, separated by spaces. */
  function Format(time: string, level: LogLevel, category: string, params: seq<Js.Value>, inspect: Js.Value -> string): string {
    time + " " + PadStart(LevelName(level), 5, ' ') + " " + "[" + category + "]" + " "
      + Join(ParamTexts(level, params, inspect), " ")
  }

  /** What one console call emits: a formatted line when the level passes the filter. */
  function Emitted(logLevel: Option<string>, m: Method, time: string, category: string, params: seq<Js.Value>, inspect: Js.Value -> string): (r: seq<string>)
    ensures |r| <= 1
    ensures |r| == 1 <==> ShouldLog(logLevel, LevelOf(m))
    ensures |r| == 1 ==> r[0] == Format(time, LevelOf(m), category, params, inspect)
  {
    if ShouldLog(logLevel, LevelOf(m)) then [Format(time, LevelOf(m), category, params, inspect)] else []
  }

  // ---------------------------------------------------------------------------
  // Properties of the filter and the line format

  /** Everything at or above the configured rank passes, everything below is dropped. */
  lemma ShouldLogMonotone(logLevel: Option<string>, lower: LogLevel, higher: LogLevel)
    requires Rank(lower) <= Rank(higher) && ShouldLog(logLevel, lower)
    ensures ShouldLog(logLevel, higher)
  {
  }

  /** A configured level name, in any letter case, lets through exactly the levels of
      that rank or above. */
  lemma ConfiguredThreshold(name: string, configured: LogLevel, level: LogLevel)
    requires ToUpperAscii(name) == LevelName(configured)
    ensures ShouldLog(Some(name), level) <==> Rank(level) >= Rank(configured)
  {
    assert name != "" by { assert |ToUpperAscii(name)| == |LevelName(configured)| > 0; }
  }

  /** An unset or empty level means `debug`: everything is emitted. */
  lemma UnsetLevelEmitsAll(logLevel: Option<string>, level: LogLevel)
    requires logLevel.None? || logLevel == Some("")
    ensures ShouldLog(logLevel, level)
  {
    assert ToUpperAscii("debug") == "DEBUG";
  }

  /** A name that is not a level, after upper-casing, counts as rank 0: everything is emitted. */
  lemma UnknownLevelEmitsAll(name: string, level: LogLevel)
    requires name != "" && RankOfName(ToUpperAscii(name)).None?
    ensures ShouldLog(Some(name), level)
  {
  }

  /** ERROR passes every configuration. */
  lemma ErrorAlwaysEmitted(logLevel: Option<string>)
    ensures ShouldLog(logLevel, ERROR)
  {
  }

  /** `log` and `info` filter and format identically. */
  lemma LogIsInfo(logLevel: Option<string>, time: string, category: string, params: seq<Js.Value>, inspect: Js.Value -> string)
    ensures Emitted(logLevel, Log, time, category, params, inspect) == Emitted(logLevel, Info, time, category, params, inspect)
  {
  }

  /** The line starts with the time and a space, then five columns that end with the level
      name and are otherwise blank, and then a space and the bracketed category. */
  lemma FormatShape(time: string, level: LogLevel, category: string, params: seq<Js.Value>, inspect: Js.Value -> string)
    ensures var line := Format(time, level, category, params, inspect);
      var padded := PadStart(LevelName(level), 5, ' ');
      && |padded| == 5
      && padded[5 - |LevelName(level)|..] == LevelName(level)
      && (forall i :: 0 <= i < 5 - |LevelName(level)| ==> padded[i] == ' ')
      && |line| >= |time| + 9 + |category|
      && line[..|time| + 1] == time + " "
      && line[|time| + 1..|time| + 6] == padded
      && line[|time| + 6..|time| + 9 + |category|] == " [" + category + "]"
  {
    var padded := PadStart(LevelName(level), 5, ' ');
    var head := time + " ";
    var mid := " [" + category + "]";
    var rest := " " + Join(ParamTexts(level, params, inspect), " ");
    assert Format(time, level, category, params, inspect) == head + padded + mid + rest;
    ConcatParts(head, padded, mid, rest);
  }

  /** The slices of a four-part concatenation are its parts. */
  lemma ConcatParts(a: string, b: string, c: string, d: string)
    ensures |a + b + c + d| == |a| + |b| + |c| + |d|
    ensures (a + b + c + d)[..|a|] == a
    ensures (a + b + c + d)[|a|..|a| + |b|] == b
    ensures (a + b + c + d)[|a| + |b|..|a| + |b| + |c|] == c
  {
    var s := a + b + c + d;
    assert s == a + (b + (c + d));
    assert s[|a|..] == b + (c + d);
    assert s[|a| + |b|..] == c + d;
  }

  // ---------------------------------------------------------------------------
  // The two console classes

  /** `Console`: a category, and level methods that write the filtered line to stdout. */
  class Console {
    var category: string

    constructor(category: string)
      ensures this.category == category
    {
      this.category := category;
    }

    /** One call of a level method: the line written to stdout, if any. */
    method Call(logLevel: Option<string>, m: Method, time: string, params: seq<Js.Value>, inspect: Js.Value -> string)
      returns (written: Option<string>)
      ensures written.Some? <==> ShouldLog(logLevel, LevelOf(m))
      ensures written.Some? ==> written.value == Format(time, LevelOf(m), category, params, inspect)
    {
      if !ShouldLog(logLevel, LevelOf(m)) {
        return None;
      }
      written := Some(Format(time, LevelOf(m), category, params, inspect));
    }
  }

  /** `DebugConsole`: a console that also keeps each formatted line, in call order. */
  class DebugConsole {
    var category: string
    var logs: seq<string>

    constructor(category: string)
      ensures this.category == category && logs == []
    {
      this.category := category;
      logs := [];
    }

    /** One call of a level method: the line is pushed only when the level passes, since
        the push happens while formatting, which runs after the filter. */
    method Call(logLevel: Option<string>, m: Method, time: string, params: seq<Js.Value>, inspect: Js.Value -> string)
      returns (written: Option<string>)
      modifies this
      ensures category == old(category)
      ensures logs == old(logs) + Emitted(logLevel, m, time, category, params, inspect)
      ensures written.Some? <==> ShouldLog(logLevel, LevelOf(m))
      ensures written.Some? ==> logs == old(logs) + [written.value]
    {
      if !ShouldLog(logLevel, LevelOf(m)) {
        return None;
      }
      var line := Format(time, LevelOf(m), category, params, inspect);
      logs := logs + [line];
      written := Some(line);
    }

    /** `getLogs()`: the buffer as a JSON array, from which the same lines in the same
        order can be read back. */
    function GetLogs(): (r: string)
      reads this
      ensures JsonStrings.Parse(r) == Some(logs)
    {
      JsonStrings.StringifyRoundTrip(logs);
      JsonStrings.Stringify(logs)
    }
  }
}
