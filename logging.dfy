/**
 * The logic parts of stagecraft's logging setup: ANSI colour wrapping, the
 * line-buffering proxy that turns writes to stdout/stderr into log records,
 * the search for a collision-free log file name, and the once-only
 * `configure` of the logging manager.  The logger itself, handlers, files and
 * the clock are outside the model: records handed to the logger are collected
 * in a sequence, the file system is a set of existing paths and the run
 * timestamp is a parameter.
 */
module Logging {
  import opened Errors
  import opened Text

  // ----- colours -----------------------------------------------------------

  datatype AnsiColor =
    | Black | Red | Green | Yellow | Blue | Magenta | Cyan | White | Default
    | BlackBright | RedBright | GreenBright | YellowBright | BlueBright | MagentaBright
    | CyanBright | WhiteBright | DefaultBright
    | BgBlack | BgRed | BgGreen | BgYellow | BgBlue | BgMagenta | BgCyan | BgWhite | BgDefault
    | BgBlackBright | BgRedBright | BgGreenBright | BgYellowBright | BgBlueBright
    | BgMagentaBright | BgCyanBright | BgWhiteBright | BgDefaultBright
    | Bold | Dim | Underline | Blink | Reverse | Hide
    | BoldOff | DimOff | UnderlineOff | BlinkOff | ReverseOff | HideOff
    | End

  /** The SGR parameter of each colour's escape sequence `ESC [ n m`. */
  function Sgr(c: AnsiColor): nat {
    match c
    case Black => 30 case Red => 31 case Green => 32 case Yellow => 33
    case Blue => 34 case Magenta => 35 case Cyan => 36 case White => 37 case Default => 39
    case BlackBright => 90 case RedBright => 91 case GreenBright => 92 case YellowBright => 93
    case BlueBright => 94 case MagentaBright => 95 case CyanBright => 96 case WhiteBright => 97
    case DefaultBright => 99
    case BgBlack => 40 case BgRed => 41 case BgGreen => 42 case BgYellow => 43
    case BgBlue => 44 case BgMagenta => 45 case BgCyan => 46 case BgWhite => 47 case BgDefault => 49
    case BgBlackBright => 100 case BgRedBright => 101 case BgGreenBright => 102
    case BgYellowBright => 103 case BgBlueBright => 104 case BgMagentaBright => 105
    case BgCyanBright => 106 case BgWhiteBright => 107 case BgDefaultBright => 109
    case Bold => 1 case Dim => 2 case Underline => 4 case Blink => 5 case Reverse => 7 case Hide => 8
    case BoldOff => 21 case DimOff => 22 case UnderlineOff => 24 case BlinkOff => 25
    case ReverseOff => 27 case HideOff => 28
    case End => 0
  }

  /** `color.value` */
  function Code(c: AnsiColor): (r: string)
    ensures |r| >= 4 && r[0] == '\U{1B}' && r[1] == '[' && r[|r| - 1] == 'm'
  {
    "\U{1B}[" + NatToDecimal(Sgr(c)) + "m"
  }

  /** The reset sequence that closes every coloured message. */
  lemma EndCode()
    ensures Code(End) == "\U{1B}[0m"
  {
    assert NatToDecimal(0) == "0";
  }

  /** `color_fmt(msg, color)` for a message that is already text. */
  function ColorFmt(msg: string, color: AnsiColor): (r: string)
    ensures |r| == |Code(color)| + |msg| + |Code(End)|
    ensures r[..|Code(color)|] == Code(color)
    ensures r[|Code(color)|..|Code(color)| + |msg|] == msg
    ensures r[|Code(color)| + |msg|..] == Code(End)
  {
    Code(color) + msg + Code(End)
  }

  /** Removes a colour code and the trailing reset code, if both are there. */
  function StripColor(s: string, color: AnsiColor): (r: Option<string>)
    ensures r.Some? ==> |s| == |Code(color)| + |r.value| + |Code(End)|
  {
    var open, close := Code(color), Code(End);
    if |s| >= |open| + |close| && s[..|open|] == open && s[|s| - |close|..] == close
    then Some(s[|open|..|s| - |close|])
    else None
  }

  /** The message inside `color_fmt` is recovered intact. */
  lemma StripColorFmt(msg: string, color: AnsiColor)
    ensures StripColor(ColorFmt(msg, color), color) == Some(msg)
  {
    var s := ColorFmt(msg, color);
    assert s[|s| - |Code(End)|..] == Code(End);
  }

  // ----- the stream proxy ----------------------------------------------------

  datatype LogRecord = LogRecord(level: int, message: string)

  /** Index of the first newline of `t`, or `|t|` when there is none. */
  function FirstNewline(t: string): (i: nat)
    ensures i <= |t|
    ensures i < |t| ==> t[i] == '\n'
  {
    if |t| == 0 then 0 else if t[0] == '\n' then 0 else 1 + FirstNewline(t[1..])
  }

  /** No newline comes before the first one, so there is none at all exactly when the search runs off the end. */
  lemma {:induction false} FirstNewlineIsFirst(t: string)
    ensures '\n' !in t[..FirstNewline(t)]
    ensures FirstNewline(t) == |t| <==> '\n' !in t
  {
    if |t| > 0 && t[0] != '\n' {
      FirstNewlineIsFirst(t[1..]);
      assert t[..FirstNewline(t)] == [t[0]] + t[1..][..FirstNewline(t[1..])];
      assert t == [t[0]] + t[1..];
    }
  }

  /** The complete lines of `t`: the pieces before each newline. */
  function Lines(t: string): seq<string>
    decreases |t|
  {
    var i := FirstNewline(t);
    if i == |t| then [] else [t[..i]] + Lines(t[i + 1..])
  }

  /** What follows the last newline of `t`: an unfinished line. */
  function Rest(t: string): string
    decreases |t|
  {
    var i := FirstNewline(t);
    if i == |t| then t else Rest(t[i + 1..])
  }

  /** Each line followed by its newline. */
  function Terminated(lines: seq<string>): string {
    if |lines| == 0 then "" else lines[0] + "\n" + Terminated(lines[1..])
  }

  /** The records `write` hands to the logger for these lines: the non-blank ones, in order. */
  function Records(level: int, lines: seq<string>): seq<LogRecord> {
    if |lines| == 0 then []
    else (if IsBlank(lines[0]) then [] else [LogRecord(level, lines[0])]) + Records(level, lines[1..])
  }

  lemma TerminatedCons(line: string, lines: seq<string>)
    ensures Terminated([line] + lines) == line + "\n" + Terminated(lines)
  {
    assert ([line] + lines)[1..] == lines;
  }

  /** Nothing is lost: the complete lines with their newlines, then the unfinished rest, give back the text. */
  lemma {:induction false} LinesThenRest(t: string)
    ensures Terminated(Lines(t)) + Rest(t) == t
    decreases |t|
  {
    var i := FirstNewline(t);
    if i < |t| {
      var u := t[i + 1..];
      LinesThenRest(u);
      SplitFirstLine(t, 0);
      TerminatedCons(t[..i], Lines(u));
      AppendAssoc(t[..i] + "\n", Terminated(Lines(u)), Rest(u));
      SplitAtNewline(t, i);
    }
  }

  /** The unfinished rest never holds a newline, and neither does any complete line. */
  lemma {:induction false} NoNewlineLeft(t: string)
    ensures '\n' !in Rest(t)
    ensures forall k :: 0 <= k < |Lines(t)| ==> '\n' !in Lines(t)[k]
    decreases |t|
  {
    var i := FirstNewline(t);
    FirstNewlineIsFirst(t);
    if i < |t| {
      NoNewlineLeft(t[i + 1..]);
    } else {
      assert t[..i] == t;
    }
  }

  /** Every record comes from a non-blank line and carries the proxy's level. */
  lemma {:induction false} RecordsAreNonBlank(level: int, lines: seq<string>)
    ensures forall r :: r in Records(level, lines) ==> r.level == level && !IsBlank(r.message) && r.message in lines
  {
    if |lines| > 0 {
      RecordsAreNonBlank(level, lines[1..]);
    }
  }

  lemma SplitAtNewline(t: string, i: nat)
    requires i < |t| && t[i] == '\n'
    ensures t == t[..i] + "\n" + t[i + 1..]
  {
  }

  /** Splitting off the first line: it heads the lines and, when not blank, the records. */
  lemma SplitFirstLine(t: string, level: int)
    requires FirstNewline(t) < |t|
    ensures Lines(t) == [t[..FirstNewline(t)]] + Lines(t[FirstNewline(t) + 1..])
    ensures Rest(t) == Rest(t[FirstNewline(t) + 1..])
    ensures Records(level, Lines(t)) ==
      (if IsBlank(t[..FirstNewline(t)]) then [] else [LogRecord(level, t[..FirstNewline(t)])])
      + Records(level, Lines(t[FirstNewline(t) + 1..]))
  {
    var ls := Lines(t);
    assert ls[1..] == Lines(t[FirstNewline(t) + 1..]);
  }

  /** One turn of `write`'s loop keeps "records so far, then records still due" unchanged. */
  lemma ResidueStep(level: int, t: string, done: seq<LogRecord>)
    requires FirstNewline(t) < |t|
    ensures var i := FirstNewline(t);
            (if IsBlank(t[..i]) then done else done + [LogRecord(level, t[..i])]) + Records(level, Lines(t[i + 1..]))
            == done + Records(level, Lines(t))
  {
    SplitFirstLine(t, level);
  }

  /** `_StreamToLogger`: a file-like object that logs every completed line. */
  class StreamToLogger {
    const level: int
    var buf: string
    /** The records handed to `self.logger.log`, oldest first. */
    var emitted: seq<LogRecord>

    constructor (level: int)
      ensures this.level == level && buf == "" && emitted == []
    {
      this.level := level;
      buf := "";
      emitted := [];
    }

    /** `write(s)` */
    method Write(s: string) returns (n: nat)
      modifies this
      ensures s == "" ==> n == 0 && buf == old(buf) && emitted == old(emitted)
      ensures s != "" ==> n == |s|
      ensures s != "" ==> buf == Rest(old(buf) + s)
      ensures s != "" ==> emitted == old(emitted) + Records(level, Lines(old(buf) + s))
    {
      if s == "" {
        return 0;
      }
      buf := buf + s;
      ghost var t := buf;
      while '\n' in buf
        invariant Rest(buf) == Rest(t)
        invariant emitted + Records(level, Lines(buf)) == old(emitted) + Records(level, Lines(t))
        decreases |buf|
      {
        var i := FirstNewline(buf);
        FirstNewlineIsFirst(buf);
        var line := buf[..i];
        SplitFirstLine(buf, level);
        ResidueStep(level, buf, emitted);
        buf := buf[i + 1..];
        if !IsBlank(line) {
          emitted := emitted + [LogRecord(level, line)];
        }
      }
      FirstNewlineIsFirst(buf);
      n := |s|;
    }

    /** `flush()` */
    method Flush()
      modifies this
      ensures buf == ""
      ensures emitted == old(emitted) + (if IsBlank(old(buf)) then [] else [LogRecord(level, RStripNewlines(old(buf)))])
    {
      if !IsBlank(buf) {
        emitted := emitted + [LogRecord(level, RStripNewlines(buf))];
      }
      buf := "";
    }
  }

  /** After a non-empty write the buffer holds no newline, so flushing it logs it unchanged. */
  lemma WriteLeavesNoNewline(old_buf: string, s: string)
    ensures '\n' !in Rest(old_buf + s)
    ensures RStripNewlines(Rest(old_buf + s)) == Rest(old_buf + s)
  {
    NoNewlineLeft(old_buf + s);
  }

  // ----- the logging manager ---------------------------------------------------

  const DEBUG: int := 10
  const INFO: int := 20
  const ERROR: int := 40

  /** `LoggingManagerConfig` */
  datatype LoggingConfig = LoggingConfig(
    appName: string,
    logDir: string,
    level: int,
    consoleLevel: Option<int>,
    utcTimestamps: bool,
    logFormat: Option<string>,
    dateFormat: Option<string>,
    filenamePrefix: Option<string>,
    filenameTimeFormat: string,
    encoding: string,
    overwrite: bool,
    alsoCaptureStdoutStderr: bool)

  function DefaultConfig(): (c: LoggingConfig)
    ensures c.level == INFO && c.consoleLevel.None? && !c.overwrite && !c.alsoCaptureStdoutStderr
  {
    LoggingConfig("app", "logs", INFO, None, false, None, None, None, "%Y-%m-%d_%H-%M-%S", "utf-8-sig", false, false)
  }

  /** `console_level or level`: an unset or zero console level falls back to the root level. */
  function ConsoleLevel(c: LoggingConfig): (r: int)
    ensures c.consoleLevel.Some? && c.consoleLevel.value != 0 ==> r == c.consoleLevel.value
    ensures c.consoleLevel.None? || c.consoleLevel.value == 0 ==> r == c.level
  {
    if c.consoleLevel.Some? && c.consoleLevel.value != 0 then c.consoleLevel.value else c.level
  }

  /** The file handler's open mode: truncate when overwriting, append otherwise. */
  function FileMode(c: LoggingConfig): (r: string)
    ensures r == "w" <==> c.overwrite
    ensures r == "a" <==> !c.overwrite
  {
    if c.overwrite then "w" else "a"
  }

  /** `filename_prefix or app_name` */
  function FilePrefix(c: LoggingConfig): string {
    if c.filenamePrefix.Some? && c.filenamePrefix.value != "" then c.filenamePrefix.value else c.appName
  }

  /** An f-string renders an unset timestamp as `None`. */
  function StampText(stamp: Option<string>): string {
    if stamp.Some? then stamp.value else "None"
  }

  /** `log_dir / f"{prefix}_{stamp}.log"` */
  function BasePath(c: LoggingConfig, stamp: string): string {
    c.logDir + "/" + FilePrefix(c) + "_" + stamp + ".log"
  }

  /** `log_dir / f"{prefix}_{stamp}_{suffix}.log"` */
  function CandidatePath(c: LoggingConfig, stamp: string, suffix: nat): string {
    c.logDir + "/" + FilePrefix(c) + "_" + stamp + "_" + NatToDecimal(suffix) + ".log"
  }

  lemma {:induction false} CandidatePathInjective(c: LoggingConfig, stamp: string, a: nat, b: nat)
    requires CandidatePath(c, stamp, a) == CandidatePath(c, stamp, b)
    ensures a == b
  {
    var pre := c.logDir + "/" + FilePrefix(c) + "_" + stamp + "_";
    var da, db := NatToDecimal(a), NatToDecimal(b);
    assert CandidatePath(c, stamp, a) == pre + (da + ".log");
    assert CandidatePath(c, stamp, b) == pre + (db + ".log");
    assert da + ".log" == CandidatePath(c, stamp, a)[|pre|..];
    assert db + ".log" == CandidatePath(c, stamp, b)[|pre|..];
    assert |da| == |db|;
    assert da == (da + ".log")[..|da|];
    assert db == (db + ".log")[..|db|];
    NatToDecimalInjective(a, b);
  }

  /** The name `_make_log_path` must choose: the base name unless it must be avoided, else the smallest free numbered one. */
  ghost predicate IsLogPath(c: LoggingConfig, stamp: string, existing: set<string>, p: string) {
    if c.overwrite || BasePath(c, stamp) !in existing then p == BasePath(c, stamp)
    else exists k: nat :: 1 <= k && p == CandidatePath(c, stamp, k) && p !in existing
                          && forall j: nat :: 1 <= j < k ==> CandidatePath(c, stamp, j) in existing
  }

  /** At most one name satisfies the rule, so the choice is determined by the config, the stamp and the directory. */
  lemma LogPathUnique(c: LoggingConfig, stamp: string, existing: set<string>, p1: string, p2: string)
    requires IsLogPath(c, stamp, existing, p1) && IsLogPath(c, stamp, existing, p2)
    ensures p1 == p2
  {
    if !(c.overwrite || BasePath(c, stamp) !in existing) {
      var k1: nat :| 1 <= k1 && p1 == CandidatePath(c, stamp, k1) && p1 !in existing
                     && forall j: nat :: 1 <= j < k1 ==> CandidatePath(c, stamp, j) in existing;
      var k2: nat :| 1 <= k2 && p2 == CandidatePath(c, stamp, k2) && p2 !in existing
                     && forall j: nat :: 1 <= j < k2 ==> CandidatePath(c, stamp, j) in existing;
    }
  }

  /** Unless overwriting is allowed, the chosen file does not exist yet. */
  lemma LogPathIsFresh(c: LoggingConfig, stamp: string, existing: set<string>, p: string)
    requires IsLogPath(c, stamp, existing, p) && !c.overwrite
    ensures p !in existing
  {
  }

  /**
   * The file handler truncates a file only when overwriting was asked for, and
   * then only the base log path; otherwise it appends to a file that did not exist.
   */
  lemma NoLogTruncatedUnlessOverwrite(c: LoggingConfig, stamp: string, existing: set<string>, p: string)
    requires IsLogPath(c, stamp, existing, p)
    ensures FileMode(c) == "w" ==> c.overwrite && p == BasePath(c, stamp)
    ensures FileMode(c) == "a" ==> p !in existing
  {
  }

  lemma {:induction false} SubsetCardinality<T>(a: set<T>, b: set<T>)
    requires a <= b
    ensures |a| <= |b|
  {
    if a != {} {
      var x :| x in a;
      SubsetCardinality(a - {x}, b - {x});
    }
  }

  datatype Handler = Handler(level: int)
  datatype FileHandler = FileHandler(path: string, mode: string, encoding: string, level: int)

  /** `LoggingManager`, without the singleton machinery: one instance, configured at most once. */
  class LoggingManager {
    var config: LoggingConfig
    var configured: bool
    var runTimestamp: Option<string>
    var rootLevel: Option<int>
    var consoleHandler: Option<Handler>
    var fileHandler: Option<FileHandler>
    var logFilePath: Option<string>
    /** Whether stdout and stderr were redirected into the logger. */
    var capturing: bool

    constructor ()
      ensures config == DefaultConfig() && !configured && runTimestamp.None? && rootLevel.None?
      ensures consoleHandler.None? && fileHandler.None? && logFilePath.None? && !capturing
    {
      config := DefaultConfig();
      configured := false;
      runTimestamp, rootLevel := None, None;
      consoleHandler, fileHandler, logFilePath := None, None, None;
      capturing := false;
    }

    /** `_make_log_path()`, over the set of paths that exist. */
    method MakeLogPath(existing: set<string>) returns (path: string)
      ensures IsLogPath(config, StampText(runTimestamp), existing, path)
    {
      var stamp := StampText(runTimestamp);
      path := BasePath(config, stamp);
      if !config.overwrite && path in existing {
        var suffix: nat := 1;
        ghost var tried: set<string> := {};
        while true
          invariant suffix >= 1
          invariant forall j: nat :: 1 <= j < suffix ==> CandidatePath(config, stamp, j) in existing
          invariant tried == set j: nat | 1 <= j < suffix :: CandidatePath(config, stamp, j)
          invariant tried <= existing && |tried| == suffix - 1
          decreases |existing| - |tried|
        {
          var candidate := CandidatePath(config, stamp, suffix);
          if candidate !in existing {
            return candidate;
          }
          if candidate in tried {
            var j: nat :| 1 <= j < suffix && CandidatePath(config, stamp, j) == candidate;
            CandidatePathInjective(config, stamp, j, suffix);
          }
          assert tried + {candidate} <= existing;
          SubsetCardinality(tried + {candidate}, existing);
          tried := tried + {candidate};
          suffix := suffix + 1;
        }
      }
    }

    /** `configure(config)`: the first call sets logging up; later calls change nothing. */
    method Configure(given: Option<LoggingConfig>, stamp: string, existing: set<string>)
      modifies this
      ensures old(configured) ==> unchanged(this)
      ensures !old(configured) ==> configured
      ensures !old(configured) ==> config == (if given.Some? then given.value else old(config))
      ensures !old(configured) ==> runTimestamp == Some(stamp) && rootLevel == Some(config.level)
      ensures !old(configured) ==> consoleHandler == Some(Handler(ConsoleLevel(config)))
      ensures !old(configured) ==> logFilePath.Some? && IsLogPath(config, stamp, existing, logFilePath.value)
      ensures !old(configured) ==> fileHandler == Some(FileHandler(logFilePath.value, FileMode(config), config.encoding, config.level))
      ensures !old(configured) ==> capturing == config.alsoCaptureStdoutStderr
    {
      if configured {
        return;
      }
      if given.Some? {
        config := given.value;
      }
      runTimestamp := Some(stamp);
      rootLevel := Some(config.level);
      consoleHandler := Some(Handler(ConsoleLevel(config)));
      var path := MakeLogPath(existing);
      logFilePath := Some(path);
      fileHandler := Some(FileHandler(path, FileMode(config), config.encoding, config.level));
      capturing := config.alsoCaptureStdoutStderr;
      configured := true;
    }
  }
}
