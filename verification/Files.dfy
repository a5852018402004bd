/** A regular file with a cursor, as std::fs::File presents it. */
module Files {
  import opened Bytes

  function Zeros(n: nat): (z: seq<byte>)
    ensures |z| == n
  {
    seq(n, _ => 0)
  }

  /** The contents of a file after `data` was written at offset `pos`. */
  function WrittenAt(content: seq<byte>, pos: nat, data: seq<byte>): seq<byte> {
    if data == [] then content
    else
      (if pos <= |content| then content[..pos] else content + Zeros(pos - |content|))
      + data
      + (if pos + |data| <= |content| then content[pos + |data|..] else [])
  }

  class File {
    var content: seq<byte>
    var pos: nat

    ghost predicate AtEnd()
      reads this
    {
      pos == |content|
    }

    method SeekEnd() returns (size: nat)
      modifies this`pos
      ensures size == |content| && AtEnd()
    {
      pos := |content|;
      size := pos;
    }

    method SeekStart(offset: nat)
      modifies this`pos
      ensures pos == offset
    {
      pos := offset;
    }

    method Read(max: nat) returns (buf: seq<byte>)
      modifies this`pos
      ensures old(pos) <= |content| ==>
        buf == content[old(pos)..old(pos) + Min(max, |content| - old(pos))] && pos == old(pos) + |buf|
      ensures old(pos) > |content| ==> buf == []
    {
      if pos >= |content| {
        buf := [];
      } else {
        buf := content[pos..pos + Min(max, |content| - pos)];
        pos := pos + |buf|;
      }
    }

    method SetLen(n: nat)
      modifies this`content
      ensures content == if n <= |old(content)| then old(content)[..n] else old(content) + Zeros(n - |old(content)|)
    {
      content := if n <= |content| then content[..n] else content + Zeros(n - |content|);
    }

    method WriteAll(data: seq<byte>)
      modifies this
      ensures content == WrittenAt(old(content), old(pos), data) && pos == old(pos) + |data|
      ensures old(AtEnd()) ==> content == old(content) + data && AtEnd()
    {
      content := WrittenAt(content, pos, data);
      pos := pos + |data|;
    }
  }
}
