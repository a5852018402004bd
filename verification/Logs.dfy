/** The two on-disk histories, src/session_log.rs and src/app_log.rs: files
    pruned to their last bytes. */
module Logs {
  import opened Bytes
  import opened Files

  // ---- the session log -----------------------------------------------------

  /** What opening a session log does to the file. */
  function Rotated(max: nat, content: seq<byte>): seq<byte> {
    if max == 0 then content else Last(max, content)
  }

  /** Opening keeps the last `max` bytes of every file exactly when `max` is
      positive: a zero limit prunes nothing. */
  lemma RotatedIsLast(max: nat)
    ensures max >= 1 <==> forall c: seq<byte> :: Rotated(max, c) == Last(max, c)
  {
    if max == 0 {
      var one: seq<byte> := [0];
      assert Rotated(max, one) != Last(max, one);
    }
  }

  class SessionLog {
    const file: File
    const maxSize: nat

    /** Open a log: prune the file, leave the cursor at its end. */
    constructor Open(file: File, maxSize: nat)
      modifies file
      ensures this.file == file && this.maxSize == maxSize
      ensures file.content == Rotated(maxSize, old(file.content)) && file.AtEnd()
    {
      this.file, this.maxSize := file, maxSize;
      new;
      Rotate(file, maxSize);
    }

    static method Rotate(file: File, max: nat)
      modifies file
      ensures file.content == Rotated(max, old(file.content)) && file.AtEnd()
    {
      var size := file.SeekEnd();
      if size <= max {
        return;
      }
      var offset := size - max;
      file.SeekStart(offset);
      var buf := file.Read(max);
      assert buf == old(file.content)[offset..];
      if |buf| > 0 {
        file.SetLen(0);
        file.SeekStart(0);
        file.WriteAll(buf);
      }
      var _ := file.SeekEnd();
    }

    method Write(data: seq<byte>)
      requires file.AtEnd()
      modifies file
      ensures file.content == old(file.content) + data && file.AtEnd()
    {
      file.WriteAll(data);
    }

    /** The end-of-session marker is the last thing written. */
    method Close(marker: seq<byte>)
      requires file.AtEnd()
      modifies file
      ensures file.content == old(file.content) + marker && file.AtEnd()
    {
      file.WriteAll(marker);
    }
  }

  /** One session's use of its log, between an open and the next. */
  datatype Generation = Generation(writes: seq<seq<byte>>, marker: seq<byte>) {
    function Text(): seq<byte> {
      Flatten(writes) + marker
    }
  }

  function Written(gens: seq<Generation>): seq<byte> {
    if gens == [] then [] else Written(gens[..|gens| - 1]) + gens[|gens| - 1].Text()
  }

  /** The file just after the open that follows `gens`. */
  function Reopened(max: nat, initial: seq<byte>, gens: seq<Generation>): seq<byte> {
    if gens == [] then Rotated(max, initial)
    else Rotated(max, Reopened(max, initial, gens[..|gens| - 1]) + gens[|gens| - 1].Text())
  }

  /** Rolling log: however many sessions used it, a freshly opened log is the
      last `max` bytes of everything ever written. */
  lemma {:induction false} SessionLogKeepsLast(max: nat, initial: seq<byte>, gens: seq<Generation>)
    requires max >= 1
    ensures Reopened(max, initial, gens) == Last(max, initial + Written(gens))
  {
    if gens == [] {
      assert initial + Written(gens) == initial;
    } else {
      var before, now := gens[..|gens| - 1], gens[|gens| - 1].Text();
      var all := initial + Written(before);
      assert Reopened(max, initial, before) == Last(max, all) by {
        SessionLogKeepsLast(max, initial, before);
      }
      assert initial + Written(gens) == all + now;
      LastOfGrownTail(max, all, now);
    }
  }

  // ---- the application log -------------------------------------------------

  const APP_LOG_MAX_SIZE: nat := 256 * 1024
  const CR: byte := 13
  const LF: byte := 10
  const SPACE: byte := 32
  const BACKSLASH: byte := 92

  datatype LogLevel = LevelInfo | LevelWarn | LevelError {
    function AsBytes(): seq<byte> {
      match this
      case LevelInfo => [73, 78, 70, 79]
      case LevelWarn => [87, 65, 82, 78]
      case LevelError => [69, 82, 82, 79, 82]
    }
  }

  function Replace(s: seq<byte>, what: byte, with: seq<byte>): seq<byte> {
    if s == [] then []
    else Replace(s[..|s| - 1], what, with) + (if s[|s| - 1] == what then with else [s[|s| - 1]])
  }

  /** Two passes: carriage returns first, then line feeds. */
  function EscapeLine(message: seq<byte>): seq<byte> {
    Replace(Replace(message, CR, [BACKSLASH, 114]), LF, [BACKSLASH, 110])
  }

  function Escaped(b: byte): seq<byte> {
    if b == CR then [BACKSLASH, 114] else if b == LF then [BACKSLASH, 110] else [b]
  }

  function EscapedAll(s: seq<byte>): seq<byte> {
    if s == [] then [] else EscapedAll(s[..|s| - 1]) + Escaped(s[|s| - 1])
  }

  lemma {:induction false} ReplaceConcat(a: seq<byte>, b: seq<byte>, what: byte, with: seq<byte>)
    ensures Replace(a + b, what, with) == Replace(a, what, with) + Replace(b, what, with)
  {
    if b == [] {
      assert a + b == a;
    } else {
      assert (a + b)[..|a + b| - 1] == a + b[..|b| - 1];
      ReplaceConcat(a, b[..|b| - 1], what, with);
    }
  }

  lemma ReplaceOne(b: byte, what: byte, with: seq<byte>)
    ensures Replace([b], what, with) == if b == what then with else [b]
  {
    assert [b][..0] == [];
  }

  lemma TwoPassesOnOneByte(b: byte)
    ensures EscapeLine([b]) == Escaped(b)
  {
    ReplaceOne(b, CR, [BACKSLASH, 114]);
    ReplaceOne(b, LF, [BACKSLASH, 110]);
    if b == CR {
      ReplaceConcat([BACKSLASH], [114], LF, [BACKSLASH, 110]);
      ReplaceOne(BACKSLASH, LF, [BACKSLASH, 110]);
      ReplaceOne(114, LF, [BACKSLASH, 110]);
      assert [BACKSLASH] + [114] == [BACKSLASH, 114];
    }
  }

  /** The two passes do not disturb each other: they are one byte-by-byte escape. */
  lemma {:induction false} EscapeIsBytewise(s: seq<byte>)
    ensures EscapeLine(s) == EscapedAll(s)
  {
    if s == [] {
    } else {
      var rest, b := s[..|s| - 1], s[|s| - 1];
      EscapeIsBytewise(rest);
      TwoPassesOnOneByte(b);
      assert s == rest + [b];
      ReplaceConcat(rest, [b], CR, [BACKSLASH, 114]);
      ReplaceConcat(Replace(rest, CR, [BACKSLASH, 114]), Replace([b], CR, [BACKSLASH, 114]), LF, [BACKSLASH, 110]);
    }
  }

  lemma {:induction false} EscapedIsOneLine(s: seq<byte>)
    ensures CR !in EscapeLine(s) && LF !in EscapeLine(s)
  {
    EscapeIsBytewise(s);
    if s == [] {
    } else {
      EscapedIsOneLine(s[..|s| - 1]);
      EscapeIsBytewise(s[..|s| - 1]);
    }
  }

  function Decimal(n: nat): (s: seq<byte>)
    ensures forall b <- s :: 48 <= b <= 57
  {
    if n < 10 then [48 + n] else Decimal(n / 10) + [48 + n % 10]
  }

  predicate Digits(s: seq<byte>) {
    s != [] && forall i :: 0 <= i < |s| ==> '0' as int <= s[i] <= '9' as int
  }

  /** The number that digits stand for. */
  function ValueOf(digits: seq<byte>): int {
    if digits == [] then 0 else 10 * ValueOf(digits[..|digits| - 1]) + digits[|digits| - 1] - 48
  }

  /** A numeral stands for its number and has no leading zero. */
  lemma {:induction false} DecimalIsNumeral(n: nat)
    ensures Digits(Decimal(n)) && ValueOf(Decimal(n)) == n
    ensures n > 0 ==> Decimal(n)[0] != 48
  {
    if n < 10 {
      assert [48 + n][..0] == [];
    } else {
      var s := Decimal(n / 10);
      DecimalIsNumeral(n / 10);
      assert Decimal(n) == s + [48 + n % 10] && Decimal(n)[..|s|] == s;
    }
  }

  /** A line that consists of a title and a number. */
  predicate Says(line: seq<byte>, title: string, n: nat) {
    var m := |title|;
    && m < |line| && line[|line| - 1] == '\n' as int
    && (forall i :: 0 <= i < m ==> line[i] == title[i] as int)
    && Digits(line[m..|line| - 1]) && ValueOf(line[m..|line| - 1]) == n
  }

  lemma LabelledNumber(bytes: seq<byte>, title: string, n: nat)
    requires |bytes| == |title| && forall i :: 0 <= i < |title| ==> bytes[i] == title[i] as int
    ensures Says(bytes + Decimal(n) + [LF], title, n)
  {
    var line := bytes + Decimal(n) + [LF];
    DecimalIsNumeral(n);
    assert line[|title|..|line| - 1] == Decimal(n);
  }

  function Line(timestamp: nat, level: LogLevel, message: seq<byte>): seq<byte> {
    Decimal(timestamp) + [SPACE] + level.AsBytes() + [SPACE] + EscapeLine(message) + [LF]
  }

  /** A record is one line: its only line feed is its last byte, and no carriage return. */
  lemma RecordIsOneLine(timestamp: nat, level: LogLevel, message: seq<byte>)
    ensures
      var line := Line(timestamp, level, message);
      && CR !in line
      && |line| > 0 && line[|line| - 1] == LF
      && LF !in line[..|line| - 1]
  {
    EscapedIsOneLine(message);
    var line := Line(timestamp, level, message);
    assert line[..|line| - 1] == Decimal(timestamp) + [SPACE] + level.AsBytes() + [SPACE] + EscapeLine(message);
    assert line == line[..|line| - 1] + [LF];
  }

  /** Bytes that spell an ASCII text. */
  predicate Spells(s: seq<byte>, text: string) {
    |s| == |text| && forall i :: 0 <= i < |s| ==> s[i] == text[i] as int
  }

  /** A record says when, how serious and what, with "\r" for every carriage return
      of the message and "\n" for every line feed. */
  lemma RecordReads(timestamp: nat, level: LogLevel, message: seq<byte>) returns (when: seq<byte>, name: seq<byte>)
    ensures Line(timestamp, level, message) == when + [' ' as int] + name + [' ' as int] + EscapeLine(message) + [LF]
    ensures Digits(when) && ValueOf(when) == timestamp
    ensures Spells(name, match level case LevelInfo => "INFO" case LevelWarn => "WARN" case LevelError => "ERROR")
  {
    DecimalIsNumeral(timestamp);
    when, name := Decimal(timestamp), level.AsBytes();
  }

  lemma EscapesRead(b: byte)
    ensures b == '\r' as int ==> Spells(EscapeLine([b]), "\\r")
    ensures b == '\n' as int ==> Spells(EscapeLine([b]), "\\n")
    ensures b != '\r' as int && b != '\n' as int ==> EscapeLine([b]) == [b]
  {
    TwoPassesOnOneByte(b);
  }

  class AppLog {
    const file: File

    constructor (file: File)
      ensures this.file == file
    {
      this.file := file;
    }

    /** Append one line, then prune. */
    method Record(timestamp: nat, level: LogLevel, message: seq<byte>)
      modifies file
      ensures file.content == Last(256 * 1024, old(file.content) + Line(timestamp, level, message))
    {
      var line := Line(timestamp, level, message);
      var _ := file.SeekEnd();
      file.WriteAll(line);
      RotateFile(file, APP_LOG_MAX_SIZE);
    }

    static method RotateFile(file: File, max: nat)
      modifies file
      ensures file.content == Last(max, old(file.content))
      ensures max > 0 ==> file.AtEnd()
    {
      var size := file.SeekEnd();
      if size <= max {
        return;
      }
      if max == 0 {
        file.SetLen(0);
        return;
      }
      var offset := size - max;
      file.SeekStart(offset);
      var buf := file.Read(max);
      assert buf == old(file.content)[offset..];
      if |buf| > 0 {
        file.SetLen(0);
        file.SeekStart(0);
        file.WriteAll(buf);
      }
      var _ := file.SeekEnd();
    }
  }

  /** The application log after one `Record` per line. */
  function Recorded(initial: seq<byte>, lines: seq<seq<byte>>): seq<byte> {
    if lines == [] then initial
    else Last(APP_LOG_MAX_SIZE, Recorded(initial, lines[..|lines| - 1]) + lines[|lines| - 1])
  }

  lemma {:induction false} AppLogKeepsLast(initial: seq<byte>, lines: seq<seq<byte>>)
    requires lines != [] || |initial| <= APP_LOG_MAX_SIZE
    ensures Recorded(initial, lines) == Last(APP_LOG_MAX_SIZE, initial + Flatten(lines))
  {
    if lines == [] {
      assert initial + Flatten(lines) == initial;
    } else {
      var before, line := lines[..|lines| - 1], lines[|lines| - 1];
      if before == [] {
        assert initial + Flatten(before) == initial;
      } else {
        AppLogKeepsLast(initial, before);
        LastOfGrownTail(APP_LOG_MAX_SIZE, initial + Flatten(before), line);
      }
      assert initial + Flatten(before) + line == initial + Flatten(lines);
    }
  }
}
