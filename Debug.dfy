/** `Logger` of 5g-car/include/debug.h: a line-oriented logger writing
    "[HH:MM:SS.mmm] [LEVL] message" to standard output. The wall clock is a
    parameter (the local time of day already broken down, plus the
    milliseconds since the epoch); the build switch `ENABLE_DEBUG_LOG` is a
    parameter too. A call yields the line it writes, or nothing. */
module Debug {
  import opened Common

  datatype LogLevel = Debug | Info | Warning | Error

  /** `levelStr`: every label is four characters wide, so the message
      always starts in the same column. */
  function LevelStr(level: LogLevel): (s: string)
    ensures |s| == 4
  {
    match level
    case Debug => "DBUG"
    case Info => "INFO"
    case Warning => "WARN"
    case Error => "ERR "
  }

  /** The labels tell the levels apart. */
  lemma LevelStrInjective(a: LogLevel, b: LogLevel)
    ensures LevelStr(a) == LevelStr(b) <==> a == b
  {
  }

  /** The level a four-character tag names, if any. */
  function LevelOf(tag: string): (r: Option<LogLevel>)
    ensures r.Some? ==> LevelStr(r.value) == tag
  {
    if tag == "DBUG" then Some(Debug)
    else if tag == "INFO" then Some(Info)
    else if tag == "WARN" then Some(Warning)
    else if tag == "ERR " then Some(Error)
    else None
  }

  /** The broken-down local time `localtime` yields, and the millisecond
      count of the clock. */
  datatype Clock = Clock(hour: int, minute: int, second: int, epochMs: nat)

  predicate ValidClock(c: Clock)
  {
    0 <= c.hour <= 23 && 0 <= c.minute <= 59 && 0 <= c.second <= 60
  }

  function Digit(d: int): (c: char)
    requires 0 <= d <= 9
    ensures '0' <= c <= '9'
  {
    (48 + d) as char
  }

  /** A zero-padded decimal field of two or three characters. */
  function TwoDigits(n: int): (s: string)
    requires 0 <= n <= 99
    ensures |s| == 2 && '0' <= s[0] <= '9' && '0' <= s[1] <= '9'
  {
    [Digit(n / 10), Digit(n % 10)]
  }

  function ThreeDigits(n: int): (s: string)
    requires 0 <= n <= 999
    ensures |s| == 3
  {
    [Digit(n / 100), Digit(n / 10 % 10), Digit(n % 10)]
  }

  /** Reading a zero-padded field back gives the number. */
  lemma DigitsRoundTrip(n: int, m: int)
    requires 0 <= n <= 99 && 0 <= m <= 999
    ensures (TwoDigits(n)[0] as int - 48) * 10 + (TwoDigits(n)[1] as int - 48) == n
    ensures (ThreeDigits(m)[0] as int - 48) * 100 + (ThreeDigits(m)[1] as int - 48) * 10 +
            (ThreeDigits(m)[2] as int - 48) == m
  {
  }

  /** `%H:%M:%S` followed by "." and the milliseconds of the second,
      zero-padded to three digits. */
  function Timestamp(c: Clock): (s: string)
    requires ValidClock(c)
    ensures |s| == 12 && s[2] == ':' && s[5] == ':' && s[8] == '.'
  {
    TwoDigits(c.hour) + ":" + TwoDigits(c.minute) + ":" + TwoDigits(c.second) + "." +
    ThreeDigits(c.epochMs % 1000)
  }

  /** The line written for a message. */
  function FormatLine(c: Clock, level: LogLevel, msg: string): (line: string)
    requires ValidClock(c)
    ensures |line| == |msg| + 23
    ensures line[..13] == "[" + Timestamp(c) && line[13..16] == "] ["
    ensures line[16..20] == LevelStr(level) && line[20..22] == "] "
    ensures line[22..|line| - 1] == msg && line[|line| - 1] == '\n'
  {
    "[" + Timestamp(c) + "] " + "[" + LevelStr(level) + "] " + msg + "\n"
  }

  /** `log`: debug messages are dropped unless the switch is on; every
      other message is written. */
  function Log(enableDebugLog: bool, level: LogLevel, msg: string, c: Clock): (out: Option<string>)
    requires ValidClock(c)
    ensures out.None? <==> !enableDebugLog && level == Debug
    ensures out.Some? ==> out.value == FormatLine(c, level, msg)
  {
    if !enableDebugLog && level == Debug then None
    else Some(FormatLine(c, level, msg))
  }

  /** Recovers the level and the message from a written line. */
  function ParseLine(line: string): (r: Option<(LogLevel, string)>)
  {
    if |line| < 23 || line[0] != '[' || line[13..16] != "] [" || line[20..22] != "] " ||
       line[|line| - 1] != '\n' then None
    else
      match LevelOf(line[16..20])
      case None => None
      case Some(level) => Some((level, line[22..|line| - 1]))
  }

  /** Every written line carries its level and message unchanged. */
  lemma ParseFormat(c: Clock, level: LogLevel, msg: string)
    requires ValidClock(c)
    ensures ParseLine(FormatLine(c, level, msg)) == Some((level, msg))
  {
    var line := FormatLine(c, level, msg);
    assert line[0] == '[';
    match level
    case Debug => assert LevelOf(line[16..20]) == Some(Debug);
    case Info => assert LevelOf(line[16..20]) == Some(Info);
    case Warning => assert LevelOf(line[16..20]) == Some(Warning);
    case Error => assert LevelOf(line[16..20]) == Some(Error);
  }

  /** `debug`, `info`, `warning` and `error` (and the `LOG_*` macros):
      only `debug` can be silenced, and a written line parses back to the
      wrapper's level and the message. */
  function DebugLog(enableDebugLog: bool, msg: string, c: Clock): Option<string>
    requires ValidClock(c)
  {
    Log(enableDebugLog, Debug, msg, c)
  }

  function InfoLog(enableDebugLog: bool, msg: string, c: Clock): Option<string>
    requires ValidClock(c)
  {
    Log(enableDebugLog, Info, msg, c)
  }

  function WarningLog(enableDebugLog: bool, msg: string, c: Clock): Option<string>
    requires ValidClock(c)
  {
    Log(enableDebugLog, Warning, msg, c)
  }

  function ErrorLog(enableDebugLog: bool, msg: string, c: Clock): Option<string>
    requires ValidClock(c)
  {
    Log(enableDebugLog, Error, msg, c)
  }

  lemma Wrappers(enableDebugLog: bool, msg: string, c: Clock)
    requires ValidClock(c)
    ensures DebugLog(enableDebugLog, msg, c).Some? <==> enableDebugLog
    ensures InfoLog(enableDebugLog, msg, c).Some? && WarningLog(enableDebugLog, msg, c).Some? &&
            ErrorLog(enableDebugLog, msg, c).Some?
    ensures enableDebugLog ==> ParseLine(DebugLog(enableDebugLog, msg, c).value) == Some((Debug, msg))
    ensures ParseLine(InfoLog(enableDebugLog, msg, c).value) == Some((Info, msg))
    ensures ParseLine(WarningLog(enableDebugLog, msg, c).value) == Some((Warning, msg))
    ensures ParseLine(ErrorLog(enableDebugLog, msg, c).value) == Some((Error, msg))
  {
    ParseFormat(c, Debug, msg);
    ParseFormat(c, Info, msg);
    ParseFormat(c, Warning, msg);
    ParseFormat(c, Error, msg);
  }
}
