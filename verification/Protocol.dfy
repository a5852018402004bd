/** The client/daemon wire protocol of src/protocol.rs: 10-byte packets over a
    byte stream that fragments as it likes. */
module Protocol {
  import opened Bytes
  import opened KernelModel

  datatype MsgType = Push | Attach | Detach | Winch | Redraw | Kill | ForceDetach | Info {
    function ToU8(): byte {
      match this
      case Push => 0
      case Attach => 1
      case Detach => 2
      case Winch => 3
      case Redraw => 4
      case Kill => 5
      case ForceDetach => 6
      case Info => 7
    }
  }

  function FromU8(v: byte): (t: Option<MsgType>)
    ensures forall m: MsgType :: t == Some(m) <==> v == m.ToU8()
  {
    match v
    case 0 => Some(Push)
    case 1 => Some(Attach)
    case 2 => Some(Detach)
    case 3 => Some(Winch)
    case 4 => Some(Redraw)
    case 5 => Some(Kill)
    case 6 => Some(ForceDetach)
    case 7 => Some(Info)
    case _ => None
  }

  /** The codes on the wire, and no other byte means anything. */
  lemma TypeCodes()
    ensures FromU8(0) == Some(Push) && FromU8(1) == Some(Attach) && FromU8(2) == Some(Detach)
    ensures FromU8(3) == Some(Winch) && FromU8(4) == Some(Redraw) && FromU8(5) == Some(Kill)
    ensures FromU8(6) == Some(ForceDetach) && FromU8(7) == Some(Info)
    ensures forall v: byte | v > 7 :: FromU8(v) == None
    ensures Push.ToU8() == 0 && Attach.ToU8() == 1 && Detach.ToU8() == 2 && Winch.ToU8() == 3
    ensures Redraw.ToU8() == 4 && Kill.ToU8() == 5 && ForceDetach.ToU8() == 6 && Info.ToU8() == 7
  {
  }

  const ZEROS: seq<byte> := [0, 0, 0, 0, 0, 0, 0, 0]
  const PACKET_SIZE: nat := 10

  datatype RawPacket = Pkt(msgType: byte, len: byte, data: seq<byte>)
  type Packet = p: RawPacket | |p.data| == 8 witness Pkt(0, 0, ZEROS)

  function Control(t: MsgType, len: byte): Packet {
    Pkt(t.ToU8(), len, ZEROS)
  }

  /** The packet on the wire: its type, its length, and its eight data bytes. */
  function Encode(p: Packet): (s: seq<byte>)
    ensures |s| == PACKET_SIZE
  {
    [p.msgType, p.len] + p.data
  }

  function Decode(s: seq<byte>): (p: Packet)
    requires |s| == PACKET_SIZE
    ensures Encode(p) == s
    ensures p.msgType == s[0] && p.len == s[1] && p.data == s[2..]
  {
    Pkt(s[0], s[1], s[2..])
  }

  /** The layout, byte by byte. */
  lemma WireLayout(p: Packet)
    ensures Encode(p)[0] == p.msgType && Encode(p)[1] == p.len
    ensures forall j :: 0 <= j < 8 ==> Encode(p)[2 + j] == p.data[j]
  {
  }

  lemma EncodeIsInjective(p: Packet, q: Packet)
    ensures Encode(p) == Encode(q) ==> p == q
  {
    assert Encode(p)[0] == p.msgType && Encode(p)[1] == p.len && Encode(p)[2..] == p.data;
    assert Encode(q)[0] == q.msgType && Encode(q)[1] == q.len && Encode(q)[2..] == q.data;
  }

  // ---- streams of packets --------------------------------------------------

  function EncodeAll(ps: seq<Packet>): seq<byte> {
    if ps == [] then [] else Encode(ps[0]) + EncodeAll(ps[1..])
  }

  /** The packets a reader that always takes ten bytes at a time sees. */
  function Frames(s: seq<byte>): seq<Packet> {
    if |s| < PACKET_SIZE then [] else [Decode(s[..PACKET_SIZE])] + Frames(s[PACKET_SIZE..])
  }

  lemma {:induction false} EncodeAllConcat(ps: seq<Packet>, qs: seq<Packet>)
    ensures EncodeAll(ps + qs) == EncodeAll(ps) + EncodeAll(qs)
  {
    if ps == [] {
      assert ps + qs == qs;
    } else {
      EncodeAllConcat(ps[1..], qs);
      assert (ps + qs)[0] == ps[0] && (ps + qs)[1..] == ps[1..] + qs;
      Regroup(Encode(ps[0]), EncodeAll(ps[1..]), EncodeAll(qs));
    }
  }

  /** Taking ten bytes off an encoded stream takes exactly its first packet. */
  lemma FirstFrame(p: Packet, rest: seq<byte>)
    ensures (Encode(p) + rest)[..PACKET_SIZE] == Encode(p)
    ensures (Encode(p) + rest)[PACKET_SIZE..] == rest
    ensures Decode((Encode(p) + rest)[..PACKET_SIZE]) == p
  {
    EncodeIsInjective(p, Decode((Encode(p) + rest)[..PACKET_SIZE]));
  }

  /** Round trip of whole streams: framing undoes encoding, with any bytes still to come. */
  lemma {:induction false} FramesOfEncodeAll(ps: seq<Packet>, rest: seq<byte>)
    ensures Frames(EncodeAll(ps) + rest) == ps + Frames(rest)
  {
    if ps == [] {
      assert EncodeAll(ps) + rest == rest;
    } else {
      FramesOfEncodeAll(ps[1..], rest);
      assert EncodeAll(ps) + rest == Encode(ps[0]) + (EncodeAll(ps[1..]) + rest);
      FirstFrame(ps[0], EncodeAll(ps[1..]) + rest);
    }
  }

  /** A read that gave up with EAGAIN after `lost` bytes leaves the stream framed,
      for every stream, exactly when it had taken nothing. */
  lemma GivingUpKeepsFramingOnlyAtBoundary(lost: nat)
    requires lost < PACKET_SIZE
    ensures lost == 0 <==> forall ps: seq<Packet> | |ps| > 0 :: Frames(EncodeAll(ps)[lost..]) == ps
  {
    if lost == 0 {
      forall ps: seq<Packet> | |ps| > 0 ensures Frames(EncodeAll(ps)[lost..]) == ps {
        FramesOfEncodeAll(ps, []);
        assert EncodeAll(ps) + [] == EncodeAll(ps)[lost..];
      }
    } else {
      var one := [Control(Push, 0)];
      assert |EncodeAll(one)[lost..]| < PACKET_SIZE;
      assert Frames(EncodeAll(one)[lost..]) != one;
    }
  }

  // ---- one packet over a descriptor ----------------------------------------

  datatype ProtocolError = Eof | WouldBlock | Io(errno: int)
  datatype Result<+T> = Ok(value: T) | Err(error: ProtocolError)

  /** Read one packet, however the ten bytes arrive.  Success consumes exactly
      its encoding; a failure has consumed and discarded fewer than ten bytes. */
  method ReadFrom(os: Os, fd: Fd) returns (r: Result<Packet>, ghost lost: nat)
    requires os.k.IsOpen(fd)
    modifies os`k, os`transients, os`failures
    ensures os.transients <= old(os.transients)
    ensures r.Ok? ==>
      && |old(os.k).inbox[fd]| >= PACKET_SIZE
      && old(os.k).inbox[fd][..PACKET_SIZE] == Encode(r.value)
      && os.k == old(os.k).Consumed(fd, PACKET_SIZE)
    ensures r.Err? ==> lost < PACKET_SIZE && lost <= |old(os.k).inbox[fd]| && os.k == old(os.k).Consumed(fd, lost)
    ensures r == Err(Eof) ==> lost == |old(os.k).inbox[fd]|
    ensures os.failures >= old(os.failures)
    ensures r == Err(WouldBlock) ==> os.transients < old(os.transients)
    ensures os.failures > old(os.failures) <==> r.Err? && r.error.Io?
  {
    var raw := new byte[PACKET_SIZE](_ => 0);
    ghost var k := os.k;
    var off := 0;
    ConsumedNothing(k, fd);
    lost := 0;
    while off < PACKET_SIZE
      invariant off <= PACKET_SIZE && off <= |k.inbox[fd]|
      invariant raw[..off] == k.inbox[fd][..off]
      invariant os.k == k.Consumed(fd, off) && os.k.IsOpen(fd)
      invariant os.transients <= old(os.transients) && os.failures == old(os.failures)
      decreases PACKET_SIZE - off, os.transients
    {
      lost := off;
      assert k.inbox[fd][off..] == os.k.inbox[fd];
      var n := os.Read(fd, raw, off, PACKET_SIZE - off);
      match n
      case Did(m) =>
        if m == 0 {
          ConsumedTwice(k, fd, off, 0);
          return Err(Eof), off;
        }
        ConsumedTwice(k, fd, off, m);
        PrefixGrowsBy(k.inbox[fd], off, m);
        assert raw[..off + m] == k.inbox[fd][..off] + k.inbox[fd][off..][..m];
        off := off + m;
      case Interrupted =>
      case Again => return Err(WouldBlock), off;
      case Failed(e) => return Err(Io(e)), off;
    }
    assert raw[..off] == raw[..];
    r := Ok(Decode(raw[..]));
  }

  /** Write one packet.  Success sends exactly its encoding; a failure has sent
      a proper prefix of it. */
  method WriteTo(os: Os, fd: Fd, p: Packet) returns (r: Result<()>, ghost done: nat)
    requires os.k.IsOpen(fd)
    modifies os`k, os`transients, os`failures, os`attempts
    ensures os.transients <= old(os.transients)
    ensures done <= PACKET_SIZE && os.k == old(os.k).Sent(fd, Encode(p)[..done])
    ensures r.Ok? <==> done == PACKET_SIZE
    ensures os.failures >= old(os.failures) && (r.Ok? ==> os.failures == old(os.failures))
    ensures r.Ok? || os.transients < old(os.transients) || os.failures > old(os.failures)
  {
    var raw := Encode(p);
    ghost var k := os.k;
    var off := 0;
    SentNothing(k, fd);
    while off < PACKET_SIZE
      invariant off <= PACKET_SIZE
      invariant os.k == k.Sent(fd, raw[..off]) && os.k.IsOpen(fd)
      invariant os.transients <= old(os.transients) && os.failures == old(os.failures)
      decreases PACKET_SIZE - off, os.transients
    {
      var n := os.Write(fd, raw[off..]);
      match n
      case Did(m) =>
        SentTwice(k, fd, raw[..off], raw[off..][..m]);
        assert raw[..off] + raw[off..][..m] == raw[..off + m];
        off := off + m;
        if m == 0 {
          return Err(Eof), off;
        }
      case Interrupted =>
      case Again => return Err(WouldBlock), off;
      case Failed(e) => return Err(Io(e)), off;
    }
    return Ok(()), off;
  }

  /** Best-effort write of a text: all of `buf` unless the socket fills up or fails. */
  method WriteBuf(os: Os, fd: Fd, buf: seq<byte>) returns (ghost done: nat)
    requires os.k.IsOpen(fd)
    modifies os`k, os`transients, os`failures, os`attempts, os`told
    ensures os.transients <= old(os.transients)
    ensures done <= |buf| && os.k == old(os.k).Sent(fd, buf[..done]) && os.told == old(os.told) + buf[..done]
    ensures os.failures >= old(os.failures)
    ensures done == |buf| || os.transients < old(os.transients) || os.failures > old(os.failures)
  {
    ghost var k := os.k;
    var off := 0;
    SentNothing(k, fd);
    while off < |buf|
      invariant off <= |buf|
      invariant os.k == k.Sent(fd, buf[..off]) && os.k.IsOpen(fd)
      invariant os.told == old(os.told) + buf[..off]
      invariant os.transients <= old(os.transients) && os.failures == old(os.failures)
      decreases |buf| - off, os.transients
    {
      var n := os.Tell(fd, buf[off..]);
      match n
      case Did(m) =>
        SentTwice(k, fd, buf[..off], buf[off..][..m]);
        assert buf[..off] + buf[off..][..m] == buf[..off + m];
        Regroup(old(os.told), buf[..off], buf[off..][..m]);
        off := off + m;
      case Interrupted =>
      case Again => return off;
      case Failed(_) => return off;
    }
    done := off;
  }
}
