/**
 * The front end's level-gated logger (frontend/utils/logger.ts). The console
 * is modelled as the sequence of calls made on it, the ISO timestamp that
 * `formatMessage` reads from the clock as an argument, and the extra
 * arguments of a call as strings.
 */
module Logging {
  import opened Wrappers
  import opened Text

  datatype Level = Debug | Info | Warn | Error

  /** The console functions a message is printed with. */
  datatype ConsoleMethod = ConsoleDebug | ConsoleInfo | ConsoleWarn | ConsoleError

  /** One call on the console: opening a group, closing it, or printing arguments. */
  datatype ConsoleCall =
    | Group(title: string, style: string)
    | GroupEnd
    | Print(fn: ConsoleMethod, args: seq<string>)

  /** The parts of an `Error` object the logger reads. */
  datatype ErrorInfo = ErrorInfo(stack: Option<string>, message: string)

  function LevelName(level: Level): string {
    match level
    case Debug => "debug"
    case Info => "info"
    case Warn => "warn"
    case Error => "error"
  }

  /**
   * The CSS styles attached to each level's line: one colour per level, and
   * bold type for errors only.
   */
  function Styles(level: Level): (r: seq<string>)
    ensures 1 <= |r| && StartsWith(r[0], "color: #")
    ensures |r| == 2 <==> level == Error
    ensures level == Error ==> r[1] == "font-weight: bold"
  {
    match level
    case Debug => ["color: #6c757d"]
    case Info => ["color: #28a745"]
    case Warn => ["color: #ffc107"]
    case Error => ["color: #dc3545", "font-weight: bold"]
  }

  /** The emoji put in front of a development-only line. */
  function Emoji(level: Level): string
    requires level != Error
  {
    match level
    case Debug => "\U{1F50D}"
    case Info => "\U{1F4A1}"
    case Warn => "\U{26A0}\U{FE0F}"
  }

  /** The console function each level prints with. */
  function MethodFor(level: Level): ConsoleMethod {
    match level
    case Debug => ConsoleDebug
    case Info => ConsoleInfo
    case Warn => ConsoleWarn
    case Error => ConsoleError
  }

  /** The upper-cased level names that appear in a formatted line. */
  lemma LevelTags()
    ensures AsciiUpper(LevelName(Debug)) == "DEBUG"
    ensures AsciiUpper(LevelName(Info)) == "INFO"
    ensures AsciiUpper(LevelName(Warn)) == "WARN"
    ensures AsciiUpper(LevelName(Error)) == "ERROR"
  {
  }

  /** Everything of a formatted line in front of the message. */
  function LinePrefix(context: string, level: Level, timestamp: string): string {
    "%c[" + timestamp + "] [" + (AsciiUpper(LevelName(level)) + "] [" + context + "] ")
  }

  /** `formatMessage`: the line `%c[<timestamp>] [<LEVEL>] [<context>] <message>` and the level's styles. */
  function FormatMessage(context: string, level: Level, message: string, timestamp: string): (r: (string, seq<string>))
    ensures r.1 == Styles(level)
  {
    (LinePrefix(context, level, timestamp) + message, Styles(level))
  }

  /** The four upper-cased level names begin with four different letters. */
  lemma TagsDiffer(l1: Level, l2: Level)
    requires l1 != l2
    ensures AsciiUpper(LevelName(l1))[0] != AsciiUpper(LevelName(l2))[0]
  {
    LevelTags();
  }

  /** The prefix of a line shows the level's first letter right after the timestamp. */
  lemma PrefixShowsLevel(context: string, level: Level, timestamp: string)
    ensures var p := LinePrefix(context, level, timestamp);
            |timestamp| + 6 < |p| && p[|timestamp| + 6] == AsciiUpper(LevelName(level))[0]
  {
    LevelTags();
    var head := "%c[" + timestamp + "] [";
    var tail := AsciiUpper(LevelName(level)) + "] [" + context + "] ";
    assert |head| == |timestamp| + 6;
    assert (head + tail)[|head|] == tail[0];
  }

  /**
   * Nothing is lost in formatting: for a given timestamp and context, the
   * line determines both the level and the message.
   */
  lemma FormatMessageDetermines(context: string, timestamp: string, l1: Level, m1: string, l2: Level, m2: string)
    requires FormatMessage(context, l1, m1, timestamp).0 == FormatMessage(context, l2, m2, timestamp).0
    ensures l1 == l2 && m1 == m2
  {
    var p1, p2 := LinePrefix(context, l1, timestamp), LinePrefix(context, l2, timestamp);
    var n := |timestamp| + 6;
    PrefixShowsLevel(context, l1, timestamp);
    PrefixShowsLevel(context, l2, timestamp);
    assert (p1 + m1)[n] == p1[n] && (p2 + m2)[n] == p2[n];
    if l1 != l2 {
      TagsDiffer(l1, l2);
      assert false;
    }
    assert m1 == (p1 + m1)[|p1|..];
  }

  /** What `error(msg, err)` adds in front of the caller's arguments: the stack, or the message when there is no stack. */
  function ErrorDetail(error: Option<ErrorInfo>): (r: seq<string>)
    ensures error.None? ==> r == []
    ensures error.Some? ==> |r| == 2 && r[0] == "\nError:"
    ensures error.Some? && error.value.stack.Some? && error.value.stack.value != [] ==> r[1] == error.value.stack.value
    ensures error.Some? && (error.value.stack.None? || error.value.stack.value == []) ==> r[1] == error.value.message
  {
    match error
    case None => []
    case Some(e) =>
      ["\nError:", if e.stack.Some? && e.stack.value != "" then e.stack.value else e.message]
  }

  /**
   * What one `log` call prints: an error line, bracketed by a group, in every
   * mode; any other level one line on its own console function in
   * development, and nothing outside it.
   */
  function LogCalls(isDevelopment: bool, context: string, level: Level, message: string,
                    args: seq<string>, timestamp: string): (r: seq<ConsoleCall>)
    ensures level == Error ==>
              |r| == 3 && r[0].Group? && r[2] == GroupEnd
              && r[1] == Print(ConsoleError, [FormatMessage(context, level, message, timestamp).0] + Styles(Error) + args)
    ensures level != Error && !isDevelopment ==> r == []
    ensures level != Error && isDevelopment ==>
              |r| == 1 && r[0].Print? && r[0].fn == MethodFor(level)
              && r[0].args == [Emoji(level) + " " + FormatMessage(context, level, message, timestamp).0]
                              + Styles(level) + args
  {
    var (line, styles) := FormatMessage(context, level, message, timestamp);
    if level == Error then
      [Group("%c\U{1F534} Error in " + context, "color: #dc3545; font-weight: bold;"),
       Print(ConsoleError, [line] + styles + args),
       GroupEnd]
    else if isDevelopment then
      [Print(MethodFor(level), [Emoji(level) + " " + line] + styles + args)]
    else
      []
  }

  class Logger {
    const context: string
    const isDevelopment: bool
    var output: seq<ConsoleCall>

    /** The mode is fixed here, from the `NODE_ENV` setting. */
    constructor (context: string, nodeEnv: string)
      ensures this.context == context
      ensures isDevelopment <==> nodeEnv == "development"
      ensures output == []
    {
      this.context := context;
      this.isDevelopment := nodeEnv == "development";
      output := [];
    }

    /** `log`: the calls of `LogCalls` appended to the console. */
    method Log(level: Level, message: string, args: seq<string>, timestamp: string)
      modifies this
      ensures output == old(output) + LogCalls(isDevelopment, context, level, message, args, timestamp)
    {
      var (line, styles) := FormatMessage(context, level, message, timestamp);
      if level == Level.Error {
        output := output + [ConsoleCall.Group("%c\U{1F534} Error in " + context, "color: #dc3545; font-weight: bold;")];
        output := output + [Print(ConsoleError, [line] + styles + args)];
        output := output + [ConsoleCall.GroupEnd];
        return;
      }
      if isDevelopment {
        var emoji := Emoji(level);
        match level {
          case Debug => output := output + [Print(ConsoleDebug, [emoji + " " + line] + styles + args)];
          case Info => output := output + [Print(ConsoleInfo, [emoji + " " + line] + styles + args)];
          case Warn => output := output + [Print(ConsoleWarn, [emoji + " " + line] + styles + args)];
        }
      }
    }

    method Debug(message: string, args: seq<string>, timestamp: string)
      modifies this
      ensures output == old(output) + LogCalls(isDevelopment, context, Level.Debug, message, args, timestamp)
    {
      Log(Level.Debug, message, args, timestamp);
    }

    method Info(message: string, args: seq<string>, timestamp: string)
      modifies this
      ensures output == old(output) + LogCalls(isDevelopment, context, Level.Info, message, args, timestamp)
    {
      Log(Level.Info, message, args, timestamp);
    }

    method Warn(message: string, args: seq<string>, timestamp: string)
      modifies this
      ensures output == old(output) + LogCalls(isDevelopment, context, Level.Warn, message, args, timestamp)
    {
      Log(Level.Warn, message, args, timestamp);
    }

    /** `error`: with an error object, its stack (or message) goes in front of the other arguments. */
    method Error(message: string, error: Option<ErrorInfo>, args: seq<string>, timestamp: string)
      modifies this
      ensures output == old(output) + LogCalls(isDevelopment, context, Level.Error, message, ErrorDetail(error) + args, timestamp)
    {
      if error.Some? {
        var e := error.value;
        Log(Level.Error, message, ["\nError:", if e.stack.Some? && e.stack.value != "" then e.stack.value else e.message] + args, timestamp);
      } else {
        Log(Level.Error, message, args, timestamp);
        assert ErrorDetail(error) + args == args;
      }
    }

    /** `group`: opens a console group in development only. */
    method Group(title: string)
      modifies this
      ensures output == old(output) + (if isDevelopment then [ConsoleCall.Group("%c\U{1F4E6} " + title, "color: #0066cc; font-weight: bold;")] else [])
    {
      if isDevelopment {
        output := output + [ConsoleCall.Group("%c\U{1F4E6} " + title, "color: #0066cc; font-weight: bold;")];
      }
    }

    /** `groupEnd`: closes a console group in development only. */
    method GroupEnd()
      modifies this
      ensures output == old(output) + (if isDevelopment then [ConsoleCall.GroupEnd] else [])
    {
      if isDevelopment {
        output := output + [ConsoleCall.GroupEnd];
      }
    }
  }
}
