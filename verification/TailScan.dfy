/** The backward scan behind `tail -n`, src/util.rs. */
module TailScan {
  import opened Bytes
  import opened Files

  const BUFSIZE: nat := 4096
  const NEWLINE: byte := 10

  /** How many line feeds `s` contains. */
  function Newlines(s: seq<byte>): nat {
    if s == [] then 0 else (if s[0] == NEWLINE then 1 else 0) + Newlines(s[1..])
  }

  /** The text from `p` on holds at most `n` line feeds. */
  predicate Fits(s: seq<byte>, p: nat, n: nat)
    requires p <= |s|
  {
    Newlines(s[p..]) <= n
  }

  lemma NewlinesFrom(s: seq<byte>, p: nat)
    requires p < |s|
    ensures Newlines(s[p..]) == (if s[p] == NEWLINE then 1 else 0) + Newlines(s[p + 1..])
  {
    assert s[p..][1..] == s[p + 1..];
  }

  lemma {:induction false} NewlinesShrink(s: seq<byte>, p: nat, q: nat)
    requires p <= q <= |s|
    ensures Newlines(s[q..]) <= Newlines(s[p..])
    decreases q - p
  {
    if p < q {
      NewlinesFrom(s, p);
      NewlinesShrink(s, p + 1, q);
    }
  }

  /** The naive definition: `p` is the least offset from which the text fits. */
  ghost predicate IsTailStart(s: seq<byte>, n: nat, p: nat) {
    p <= |s| && Fits(s, p, n) && forall q :: 0 <= q < p ==> !Fits(s, q, n)
  }

  lemma TailStartIsUnique(s: seq<byte>, n: nat, p: nat, q: nat)
    requires IsTailStart(s, n, p) && IsTailStart(s, n, q)
    ensures p == q
  {
  }

  /** A fitting start just after a line feed that would be one too many is the least one. */
  lemma StartAfterNewline(s: seq<byte>, n: nat, p: nat)
    requires p < |s| && s[p] == NEWLINE && Newlines(s[p + 1..]) == n
    ensures IsTailStart(s, n, p + 1)
  {
    NewlinesFrom(s, p);
    forall q | 0 <= q <= p ensures !Fits(s, q, n) {
      NewlinesShrink(s, q, p);
    }
  }

  /** The offset just after the `n`th line feed from the end is the scan's result for
      `n` if and only if there are fewer than `n` of them (both are then 0). */
  lemma NthLineFeedOnlyForShortTexts(s: seq<byte>, n: nat, p: nat, start: nat)
    requires n >= 1 && IsTailStart(s, n - 1, p) && IsTailStart(s, n, start)
    ensures p == start <==> Newlines(s) < n
  {
    assert s[0..] == s;
    if Newlines(s) < n {
      assert Fits(s, 0, n - 1) && Fits(s, 0, n);
    } else {
      assert p > 0 && !Fits(s, p - 1, n - 1);
      NewlinesFrom(s, p - 1);
      assert Fits(s, p - 1, n);
    }
  }

  /** A file of one empty line: after its first line feed from the end lies offset 1,
      and the scan for one line gives 0. */
  lemma NthLineFeedIsNotTheStart()
    ensures IsTailStart([NEWLINE], 0, 1) && IsTailStart([NEWLINE], 1, 0)
  {
    StartAfterNewline([NEWLINE], 0, 0);
    assert [NEWLINE][0..] == [NEWLINE];
  }

  /** Scan backwards in chunks.  `size` is the length the file had when it was
      opened: a file that has not shrunk since is scanned exactly, whatever lies
      on the chunk boundaries. */
  method FindTailStart(file: File, size: nat, nlines: int) returns (start: nat)
    modifies file`pos
    ensures start <= size
    ensures nlines < 0 ==> start == 0
    ensures size <= |file.content| && nlines >= 0 ==> IsTailStart(file.content[..size], nlines, start)
  {
    var count := 0;
    var pos: int := size;
    ghost var full := size <= |file.content|;
    ghost var text := if full then file.content[..size] else [];
    while pos > 0 && count <= nlines
      invariant 0 <= pos <= size
      invariant full ==> count == Newlines(text[pos..])
      invariant count <= nlines || nlines < 0
      invariant nlines < 0 ==> count == 0
      decreases pos
    {
      var chunk := if pos > BUFSIZE then BUFSIZE else pos;
      pos := pos - chunk;
      file.SeekStart(pos);
      var buf := file.Read(chunk);
      var n := |buf|;
      if n == 0 {
        break;
      }
      assert full ==> buf == text[pos..pos + chunk];
      var hit, i;
      count, hit, i := ScanBack(buf, count, nlines, text, pos, full);
      if hit {
        return pos + i + 1;
      }
    }
    return 0;
  }

  /** One chunk, last byte first, until a line feed too many is found. */
  method ScanBack(buf: seq<byte>, count0: int, nlines: int, ghost text: seq<byte>, ghost pos: nat, ghost full: bool)
    returns (count: int, hit: bool, i: nat)
    requires count0 <= nlines
    requires full ==> pos + |buf| <= |text| && buf == text[pos..pos + |buf|] && count0 == Newlines(text[pos + |buf|..])
    ensures hit ==> i < |buf| && (full ==> IsTailStart(text, nlines, pos + i + 1))
    ensures !hit ==> count <= nlines && (full ==> count == Newlines(text[pos..]))
  {
    count, hit, i := count0, false, |buf|;
    while i > 0
      invariant i <= |buf| && count <= nlines
      invariant full ==> count == Newlines(text[pos + i..])
      decreases i
    {
      i := i - 1;
      if full {
        NewlinesFrom(text, pos + i);
        assert text[pos + i] == buf[i];
      }
      if buf[i] == NEWLINE {
        count := count + 1;
        if count > nlines {
          if full {
            StartAfterNewline(text, nlines, pos + i);
          }
          return count, true, i;
        }
      }
    }
  }
}
