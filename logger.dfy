/**
 * The logger (cxa_logger.c): named loggers that write one line per message to a
 * global output stream, each line starting with fixed-width header fields. The
 * name field is as wide as the longest logger name seen so far; an over-long
 * field is cut and ends in "...".
 *
 * The global state (stream, widest name, system logger) is a LogContext. The
 * stream is an append-only `output`. printf-style formatting is not part of this
 * model: callers hand in the text it would produce.
 */
module Logger {
  import opened Wrappers
  import opened NumberUtils
  import opened Text

  const TRUNCATE_STRING: string := "..."
  const SYSLOG_NAME: string := "sysLog"
  /** The width of the level field. */
  const LEVEL_FIELD_WIDTH: nat := 5

  type Byte = x: int | 0 <= x < 256

  datatype Level = Error | Warn | Info | Debug | Trace | Unknown

  /** The level text of writeHeader; any other level reads "UNKN". */
  function LevelText(level: Level): (t: string)
    ensures 4 <= |t| <= LEVEL_FIELD_WIDTH
    ensures level.Unknown? <==> t == "UNKN"
  {
    match level
    case Error => "ERROR"
    case Warn => "WARN"
    case Info => "INFO"
    case Debug => "DEBUG"
    case Trace => "TRACE"
    case Unknown => "UNKN"
  }

  /** Distinct levels read differently. */
  lemma LevelTextInjective(a: Level, b: Level)
    requires LevelText(a) == LevelText(b)
    ensures a == b
  {
  }

  /**
   * What writeField emits for `s` in a field of `width` bytes: the first
   * width - 3 bytes and "..." when `s` is longer than the field, otherwise `s`
   * padded with spaces. A longer string in a field narrower than "..." is not
   * handled by the C code (the byte count would wrap around).
   */
  function Field(s: string, width: nat): (r: string)
    requires |s| <= width || width >= |TRUNCATE_STRING|
    ensures |r| == width
    ensures |s| <= width ==> r[..|s|] == s && forall i :: |s| <= i < width ==> r[i] == ' '
    ensures |s| > width ==> r[..width - 3] == s[..width - 3] && r[width - 3..] == TRUNCATE_STRING
  {
    if |s| > width then s[..width - |TRUNCATE_STRING|] + TRUNCATE_STRING
    else s + Spaces(width - |s|)
  }

  /** A string that fits its field can be read back from it. */
  lemma {:induction false} FieldKeepsFittingText(s: string, width: nat)
    requires |s| <= width
    ensures Field(s, width) == s + Spaces(width - |s|)
  {
    var r := Field(s, width);
    assert r[..|s|] == s;
    assert r[|s|..] == Spaces(width - |s|);
    assert r == r[..|s|] + r[|s|..];
  }

  /** Every level text fits its five-byte field, so it is never cut. */
  lemma LevelFieldNeverCut(level: Level)
    ensures Field(LevelText(level), LEVEL_FIELD_WIDTH)[..|LevelText(level)|] == LevelText(level)
  {
  }

  /** The index of the last `c` in `s`, if any. */
  function LastIndexOf(s: string, c: char): (r: Option<nat>)
    ensures r.Some? ==> r.value < |s| && s[r.value] == c && forall j :: r.value < j < |s| ==> s[j] != c
    ensures r.None? ==> forall j :: 0 <= j < |s| ==> s[j] != c
  {
    if s == [] then None
    else if s[|s| - 1] == c then Some(|s| - 1)
    else LastIndexOf(s[..|s| - 1], c)
  }

  /**
   * The file name the stepDebug functions show: the text after the last '/',
   * or when there is none the text after the last '\', or else the whole name.
   */
  function ShortFileName(file: string): (r: string)
    ensures |r| <= |file| && file[|file| - |r|..] == r
    ensures '/' in file ==> '/' !in r && file[|file| - |r| - 1] == '/'
    ensures '/' !in file && '\\' in file ==> '\\' !in r && file[|file| - |r| - 1] == '\\'
    ensures '/' !in file && '\\' !in file ==> r == file
  {
    var slash := LastIndexOf(file, '/');
    if slash.Some? then file[slash.value + 1..]
    else
      var back := LastIndexOf(file, '\\');
      if back.Some? then file[back.value + 1..] else file
  }

  /** The last occurrence is the one LastIndexOf names. */
  lemma LastIndexOfIs(s: string, c: char, i: nat)
    requires i < |s| && s[i] == c && forall j :: i < j < |s| ==> s[j] != c
    ensures LastIndexOf(s, c) == Some(i)
  {
  }

  /** A path whose last component has no separator shortens to that component. */
  lemma {:induction false} ShortFileNameOfPath(dir: string, sep: char, name: string)
    requires sep == '/' || sep == '\\'
    requires '/' !in name && '\\' !in name
    requires sep == '\\' ==> '/' !in dir
    ensures ShortFileName(dir + [sep] + name) == name
  {
    var file := dir + [sep] + name;
    assert file[|dir|] == sep;
    assert file[|dir| + 1..] == name;
    assert forall j :: |dir| < j < |file| ==> file[j] == name[j - |dir| - 1];
    if sep == '/' {
      LastIndexOfIs(file, '/', |dir|);
    } else {
      assert forall j :: 0 <= j < |dir| ==> file[j] == dir[j];
      assert '/' !in file;
      LastIndexOfIs(file, '\\', |dir|);
    }
  }

  /** An uppercase hexadecimal digit. */
  function HexDigit(n: nat): (c: char)
    requires n < 16
    ensures c in "0123456789ABCDEF"
  {
    if n < 10 then (48 + n) as char else (55 + n) as char
  }

  /** The value of an uppercase hexadecimal digit. */
  function HexValue(c: char): (r: Option<nat>)
    ensures r.Some? ==> r.value < 16
  {
    if '0' <= c <= '9' then Some(c as int - 48)
    else if 'A' <= c <= 'F' then Some(c as int - 55)
    else None
  }

  /** "%02X": two uppercase hexadecimal digits. */
  function HexByte(b: Byte): (s: string)
    ensures |s| == 2 && s[0] in "0123456789ABCDEF" && s[1] in "0123456789ABCDEF"
  {
    [HexDigit(b / 16), HexDigit(b % 16)]
  }

  function ParseHexByte(s: string): (r: Option<Byte>)
  {
    if |s| != 2 then None
    else
      var hi := HexValue(s[0]);
      var lo := HexValue(s[1]);
      if hi.Some? && lo.Some? then Some(hi.value * 16 + lo.value) else None
  }

  /** The two digits give the byte back. */
  lemma HexByteRoundTrip(b: Byte)
    ensures ParseHexByte(HexByte(b)) == Some(b)
  {
  }

  /** The body of a memory dump: each byte as two hex digits, separated by ", ". */
  function DumpItems(bytes: seq<Byte>): string
  {
    if bytes == [] then ""
    else if |bytes| == 1 then HexByte(bytes[0])
    else DumpItems(bytes[..|bytes| - 1]) + ", " + HexByte(bytes[|bytes| - 1])
  }

  /** A dump of n > 0 bytes is 4n - 2 characters long. */
  lemma {:induction false} DumpItemsLength(bytes: seq<Byte>)
    ensures |DumpItems(bytes)| == if bytes == [] then 0 else 4 * |bytes| - 2
  {
    if |bytes| > 1 {
      DumpItemsLength(bytes[..|bytes| - 1]);
    }
  }

  /** Byte k of the dump sits at offset 4k, followed by ", " unless it is the last. */
  lemma {:induction false} DumpItemsAt(bytes: seq<Byte>, k: nat)
    requires k < |bytes|
    ensures |DumpItems(bytes)| == 4 * |bytes| - 2
    ensures DumpItems(bytes)[4 * k..4 * k + 2] == HexByte(bytes[k])
    ensures k + 1 < |bytes| ==> DumpItems(bytes)[4 * k + 2..4 * k + 4] == ", "
  {
    DumpItemsLength(bytes);
    if |bytes| > 1 {
      var init := bytes[..|bytes| - 1];
      var d := DumpItems(init);
      var full := d + ", " + HexByte(bytes[|bytes| - 1]);
      assert DumpItems(bytes) == full;
      DumpItemsLength(init);
      assert |d| == 4 * k + 2 ==> full[4 * k + 2..4 * k + 4] == ", ";
      if k < |init| {
        DumpItemsAt(init, k);
        assert init[k] == bytes[k];
        assert full[4 * k..4 * k + 2] == d[4 * k..4 * k + 2];
        if k + 1 < |init| {
          assert full[4 * k + 2..4 * k + 4] == d[4 * k + 2..4 * k + 4];
        }
      } else {
        assert full[4 * k..4 * k + 2] == HexByte(bytes[|bytes| - 1]);
      }
    }
  }

  /** A cxa_logger_t: its name buffer. */
  class LoggerObj {
    var name: string

    /** Zeroed storage: an empty name. */
    constructor ()
      ensures name == ""
    {
      name := "";
    }
  }

  /** The logger's static state. */
  class LogContext {
    /** CXA_LOGGER_MAX_NAME_LEN_CHARS: the size of a name buffer, terminator included. */
    const maxNameLen: nat
    /** CXA_LINE_ENDING */
    const lineEnding: string
    const sysLog: LoggerObj
    var isSysLogInit: bool
    /** ioStream != NULL */
    var hasStream: bool
    /** largestloggerName_bytes */
    var largestNameLen: nat
    /** Bytes written to the stream, in order. */
    var output: string

    /**
     * The system logger keeps its zeroed (empty) name until it is initialised,
     * and from then on fits the name field like every initialised logger.
     */
    ghost predicate Valid()
      reads this, sysLog
    {
      maxNameLen >= 1 &&
      (if isSysLogInit then |sysLog.name| <= largestNameLen else sysLog.name == "")
    }

    constructor (maxNameLen: nat, lineEnding: string)
      requires maxNameLen >= 1
      ensures Valid() && this.maxNameLen == maxNameLen && this.lineEnding == lineEnding
      ensures !isSysLogInit && !hasStream && largestNameLen == 0 && output == []
      ensures fresh(sysLog)
    {
      this.maxNameLen := maxNameLen;
      this.lineEnding := lineEnding;
      sysLog := new LoggerObj();
      isSysLogInit := false;
      hasStream := false;
      largestNameLen := 0;
      output := [];
    }

    /** The name a logger keeps: at most maxNameLen - 1 characters. */
    function StoredName(name: string): (r: string)
      requires maxNameLen >= 1
      ensures |r| <= maxNameLen - 1 && |r| <= |name| && r == name[..|r|]
      ensures |name| < maxNameLen ==> r == name
    {
      name[..Min(|name|, maxNameLen - 1)]
    }

    /** The name-field width once the system logger has been initialised. */
    function WidthAfterSysLog(): (w: nat)
      reads this
      requires maxNameLen >= 1
      ensures w >= largestNameLen
      ensures !isSysLogInit ==> w >= |StoredName(SYSLOG_NAME)|
    {
      if isSysLogInit then largestNameLen else Max(largestNameLen, |StoredName(SYSLOG_NAME)|)
    }

    /** cxa_logger_setGlobalIoStream, reduced to whether a stream is set. */
    method SetGlobalIoStream(present: bool)
      requires Valid()
      modifies this, sysLog
      ensures Valid() && isSysLogInit && hasStream == present
      ensures largestNameLen == old(WidthAfterSysLog())
      ensures output == old(output)
    {
      CheckSysLogInit();
      hasStream := present;
    }

    /**
     * cxa_logger_init (and cxa_logger_init_formattedString once its text is
     * formatted): makes sure the system logger exists, stores the truncated name
     * and widens the name field to it if needed, so the field never shrinks and
     * always fits the new name.
     */
    method Init(logger: LoggerObj, name: string)
      requires Valid()
      modifies this, logger, sysLog
      ensures Valid() && isSysLogInit
      ensures logger.name == StoredName(name)
      ensures largestNameLen == Max(old(WidthAfterSysLog()), |StoredName(name)|)
      ensures old(largestNameLen) <= largestNameLen && |logger.name| <= largestNameLen
      ensures hasStream == old(hasStream) && output == old(output)
      decreases if isSysLogInit then 0 else 1, 1
    {
      CheckSysLogInit();
      logger.name := StoredName(name);
      if |logger.name| > largestNameLen {
        largestNameLen := |logger.name|;
      }
    }

    /**
     * checkSysLogInit: the system logger is initialised at most once; the flag is
     * set before the nested init, which therefore does not come back here.
     */
    method CheckSysLogInit()
      requires Valid()
      modifies this, sysLog
      ensures Valid() && isSysLogInit
      ensures largestNameLen == old(WidthAfterSysLog())
      ensures old(isSysLogInit) ==> sysLog.name == old(sysLog.name)
      ensures !old(isSysLogInit) ==> sysLog.name == StoredName(SYSLOG_NAME)
      ensures hasStream == old(hasStream) && output == old(output)
      decreases if isSysLogInit then 0 else 1, 0
    {
      if !isSysLogInit {
        isSysLogInit := true;
        Init(sysLog, SYSLOG_NAME);
      }
    }

    /** writeField: the string, then the padding loop; or the cut string and "...". */
    method WriteField(s: string, width: nat)
      requires |s| <= width || width >= |TRUNCATE_STRING|
      modifies this
      ensures output == old(output) + Field(s, width)
      ensures hasStream == old(hasStream) && largestNameLen == old(largestNameLen)
      ensures isSysLogInit == old(isSysLogInit)
    {
      if |s| > width {
        output := output + s[..width - |TRUNCATE_STRING|] + TRUNCATE_STRING;
      } else {
        output := output + s;
        var i := |s|;
        while i < width
          invariant |s| <= i <= width
          invariant output == old(output) + s + Spaces(i - |s|)
          invariant hasStream == old(hasStream) && largestNameLen == old(largestNameLen)
          invariant isSysLogInit == old(isSysLogInit)
        {
          output := output + [' '];
          i := i + 1;
        }
      }
    }

    /**
     * The header fields modelled: the name, padded to the widest name (so never
     * cut), then the level text in its five-byte field and a space.
     */
    function Header(name: string, level: Level): (h: string)
      reads this
      requires |name| <= largestNameLen
      ensures |h| == largestNameLen + LEVEL_FIELD_WIDTH + 1
      ensures h[..|name|] == name
      ensures h[largestNameLen..largestNameLen + |LevelText(level)|] == LevelText(level)
    {
      var f := Field(name, largestNameLen);
      var g := Field(LevelText(level), LEVEL_FIELD_WIDTH);
      assert (f + g + " ")[..|name|] == f[..|name|];
      assert (f + g + " ")[largestNameLen..largestNameLen + |LevelText(level)|] == g[..|LevelText(level)|];
      f + g + " "
    }

    /** writeHeader, without the time and logger-address fields. */
    method WriteHeader(name: string, level: Level)
      requires |name| <= largestNameLen
      modifies this
      ensures hasStream == old(hasStream) && largestNameLen == old(largestNameLen)
      ensures isSysLogInit == old(isSysLogInit)
      ensures output == old(output) + Header(name, level)
    {
      WriteField(name, largestNameLen);
      WriteField(LevelText(level), LEVEL_FIELD_WIDTH);
      output := output + " ";
    }

    /**
     * cxa_logger_log_untermString: after the system-logger check, nothing is
     * written without a stream; otherwise one line: header, optional prefix,
     * the text, optional postfix and the line ending.
     */
    method LogUntermString(logger: LoggerObj, level: Level, prefix: Option<string>, text: string, postfix: Option<string>)
      requires Valid() && |logger.name| <= largestNameLen && !level.Unknown?
      modifies this, sysLog
      ensures Valid() && isSysLogInit && hasStream == old(hasStream)
      ensures !hasStream ==> output == old(output)
      ensures hasStream ==>
        |logger.name| <= largestNameLen &&
        output == old(output) + Header(logger.name, level) +
          ((if prefix.Some? then prefix.value else "") + text + (if postfix.Some? then postfix.value else "") + lineEnding)
    {
      CheckSysLogInit();
      if !hasStream {
        return;
      }
      var body := (if prefix.Some? then prefix.value else "") + text +
                  (if postfix.Some? then postfix.value else "") + lineEnding;
      WriteHeader(logger.name, level);
      output := output + body;
    }

    /**
     * cxa_logger_log_formattedString, given the text its format expands to:
     * nothing without a stream, otherwise header, text and line ending.
     */
    method LogFormattedString(logger: LoggerObj, level: Level, formatted: string)
      requires Valid() && |logger.name| <= largestNameLen && !level.Unknown?
      modifies this, sysLog
      ensures Valid() && isSysLogInit && hasStream == old(hasStream)
      ensures !hasStream ==> output == old(output)
      ensures hasStream ==>
        |logger.name| <= largestNameLen &&
        output == old(output) + Header(logger.name, level) + (formatted + lineEnding)
    {
      CheckSysLogInit();
      if !hasStream {
        return;
      }
      WriteHeader(logger.name, level);
      output := output + (formatted + lineEnding);
    }

    /**
     * cxa_logger_stepDebug_formattedString, given `location`, the text its
     * "%s::%d" format gives for a file name, and the text the message format
     * expands to (None: no format). It logs as the system logger at Debug.
     */
    method StepDebug(file: string, location: string -> string, formatted: Option<string>)
      requires Valid()
      modifies this
      ensures Valid()
      ensures !hasStream ==> output == old(output)
      ensures hasStream ==>
        output == old(output) + Header(sysLog.name, Debug) +
          (location(ShortFileName(file)) + (if formatted.Some? then " - " + formatted.value else "") + lineEnding)
    {
      if !hasStream {
        return;
      }
      var shortName := ShortFileName(file);
      var body := location(shortName) + (if formatted.Some? then " - " + formatted.value else "") + lineEnding;
      WriteHeader(sysLog.name, Debug);
      output := output + body;
    }

    /**
     * cxa_logger_stepDebug_memDump_impl: header, location, message, then the
     * bytes as "{" DumpItems "}", and the line ending.
     */
    method StepDebugMemDump(file: string, location: string -> string, bytes: seq<Byte>, msg: string)
      requires Valid()
      modifies this
      ensures Valid()
      ensures !hasStream ==> output == old(output)
      ensures hasStream ==>
        output == old(output) + Header(sysLog.name, Debug) +
          (location(ShortFileName(file)) + " - " + msg + "{" + DumpItems(bytes) + "}" + lineEnding)
    {
      if !hasStream {
        return;
      }
      var shortName := ShortFileName(file);
      WriteHeader(sysLog.name, Debug);
      var dump := DumpBytes(bytes);
      output := output + (location(shortName) + " - " + msg + "{" + dump + "}" + lineEnding);
    }
  }

  /** The dump loop of cxa_logger_stepDebug_memDump_impl: each byte, then ", " unless it is the last. */
  method DumpBytes(bytes: seq<Byte>) returns (out: string)
    ensures out == DumpItems(bytes)
  {
    out := "";
    var i := 0;
    while i < |bytes|
      invariant i <= |bytes|
      invariant out == DumpItems(bytes[..i]) + (if 0 < i < |bytes| then ", " else "")
    {
      assert bytes[..i + 1][..i] == bytes[..i];
      out := out + HexByte(bytes[i]);
      if i != |bytes| - 1 {
        out := out + ", ";
      }
      i := i + 1;
    }
    assert bytes[..|bytes|] == bytes;
  }
}
