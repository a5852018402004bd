/** The client's side, src/session.rs: what `push`, `attach` and the interactive
    loop put on the wire. */
module ClientSession {
  import opened Bytes
  import opened KernelModel
  import opened Protocol
  import opened DaemonModel
  import opened DaemonSafety
  import opened ClientView
  import opened Pipeline

  const STDIN: Fd := 0

  /** The connection's transcript, from the client's end. */
  ghost function Wire(k: Kernel, s: Fd): seq<byte> {
    if s in k.sent then k.sent[s] else []
  }

  ghost function Stdin(k: Kernel): seq<byte> {
    if STDIN in k.inbox then k.inbox[STDIN] else []
  }

  ghost predicate Connected(k: Kernel, s: Fd) {
    k.IsOpen(STDIN) && k.IsOpen(s) && s != STDIN
  }

  // ---- push ----------------------------------------------------------------

  lemma PushPacketsSnoc(cuts: seq<seq<byte>>, c: seq<byte>)
    requires FitsPackets(cuts) && 0 < |c| <= 8
    ensures FitsPackets(cuts + [c])
    ensures EncodeAll(PushPackets(cuts + [c])) == EncodeAll(PushPackets(cuts)) + Encode(PushPacket(c))
  {
    assert PushPackets(cuts + [c]) == PushPackets(cuts) + [PushPacket(c)];
    EncodeAllConcat(PushPackets(cuts), [PushPacket(c)]);
    assert EncodeAll([PushPacket(c)]) == Encode(PushPacket(c)) + EncodeAll([PushPacket(c)][1..]);
  }

  lemma BufferAsPush(buf: seq<byte>, chunk: seq<byte>)
    requires |chunk| <= 8 && buf == [] + chunk + ZEROS[|chunk|..]
    ensures |buf| == 8 && Pkt(Push.ToU8(), |chunk|, buf) == PushPacket(chunk)
  {
  }

  /** Read up to eight bytes of standard input into a fresh Push packet. */
  method ReadInput(os: Os) returns (r: IoResult, pkt: Packet)
    requires os.k.IsOpen(STDIN)
    modifies os
    ensures r.Did? ==>
      && r.n <= 8 && r.n <= |Stdin(old(os.k))| && (r.n == 0 <==> Stdin(old(os.k)) == [])
      && pkt == PushPacket(Stdin(old(os.k))[..r.n])
      && os.k == old(os.k).Consumed(STDIN, r.n)
    ensures !r.Did? ==> os.k == old(os.k)
    ensures os.transients <= old(os.transients) && os.failures == old(os.failures) + (if r.Failed? then 1 else 0)
    ensures r.Interrupted? || r.Again? ==> os.transients < old(os.transients)
  {
    ghost var input := Stdin(os.k);
    var data := new byte[8](_ => 0);
    assert data[..] == ZEROS && data[..0] == [];
    pkt := Control(Push, 0);
    label L:
    r := os.Read(STDIN, data, 0, 8);
    if r.Did? {
      assert old@L(data[r.n..]) == ZEROS[r.n..];
      BufferAsPush(data[..], input[..r.n]);
      pkt := Pkt(Push.ToU8(), r.n, data[..]);
    }
  }

  /** One pass of the push loop: nothing more to read, a failure, or one more cut sent. */
  method PushOne(os: Os, s: Fd) returns (eof: bool, failed: bool, ghost c: seq<byte>, ghost done: nat)
    requires Connected(os.k, s)
    modifies os
    ensures Connected(os.k, s) && c + Stdin(os.k) == Stdin(old(os.k)) && |c| <= 8 && done <= PACKET_SIZE
    ensures eof <==> c == [] && !failed
    ensures eof ==> Stdin(old(os.k)) == []
    ensures c == [] ==> done == 0
    ensures !failed && !eof ==> done == PACKET_SIZE
    ensures failed ==> done < PACKET_SIZE
    ensures os.transients <= old(os.transients) && (!failed ==> os.failures == old(os.failures))
    ensures failed ==> os.transients < old(os.transients) || os.failures > old(os.failures)
    ensures Wire(os.k, s) == Wire(old(os.k), s) + Encode(PushPacket(c))[..done]
  {
    ghost var k := os.k;
    var r, pkt := ReadInput(os);
    c, done := [], 0;
    if !r.Did? {
      return false, true, [], 0;
    }
    if r.n == 0 {
      return true, false, [], 0;
    }
    c := Stdin(k)[..r.n];
    var w;
    w, done := WriteTo(os, s, pkt);
    return false, w.Err?, c, done;
  }

  /** What `push` leaves of its input: `wire` carries the packets of the first cuts,
      and after a failure perhaps part of one more; on success the cuts are the
      whole input. */
  ghost predicate PushOutcome(input: seq<byte>, wire: seq<byte>, code: int, cuts: seq<seq<byte>>, torn: seq<byte>) {
    && FitsPackets(cuts) && |torn| < PACKET_SIZE
    && wire == EncodeAll(PushPackets(cuts)) + torn
    && Flatten(cuts) <= input
    && (code == 0 ==> torn == [] && Flatten(cuts) == input)
  }

  /** In the middle of it: `sent` is on the wire, `left` is still to be read. */
  ghost predicate Pushing(input: seq<byte>, left: seq<byte>, sent: seq<byte>, cuts: seq<seq<byte>>) {
    FitsPackets(cuts) && sent == EncodeAll(PushPackets(cuts)) && Flatten(cuts) + left == input
  }

  lemma PushingGoesOn(input: seq<byte>, left: seq<byte>, sent: seq<byte>, cuts: seq<seq<byte>>,
                      c: seq<byte>, rest: seq<byte>)
    requires Pushing(input, left, sent, cuts) && left == c + rest && 0 < |c| <= 8
    ensures Pushing(input, rest, sent + Encode(PushPacket(c)), cuts + [c])
  {
    PushPacketsSnoc(cuts, c);
    FlattenSnoc(cuts, c);
    Regroup(Flatten(cuts), c, rest);
  }

  /** `push`: everything read is on the wire in order, one packet a read; it fails
      only if a read or a write did. */
  method PushStdin(os: Os, s: Fd)
    returns (code: int, ghost cuts: seq<seq<byte>>, ghost torn: seq<byte>, ghost wire: seq<byte>)
    requires Connected(os.k, s)
    modifies os
    ensures Wire(os.k, s) == Wire(old(os.k), s) + wire
    ensures PushOutcome(Stdin(old(os.k)), wire, code, cuts, torn)
    ensures code == 0 || code == 1
    ensures code == 1 ==> os.transients < old(os.transients) || os.failures > old(os.failures)
  {
    ghost var k := os.k;
    cuts, torn, wire := [], [], [];
    var eof, failed := false, false;
    while !eof && !failed
      invariant Connected(os.k, s) && Wire(os.k, s) == Wire(k, s) + wire
      invariant !failed ==> Pushing(Stdin(k), Stdin(os.k), wire, cuts) && torn == []
      invariant eof ==> Stdin(os.k) == []
      invariant failed ==> PushOutcome(Stdin(k), wire, 1, cuts, torn)
      invariant os.transients <= old(os.transients) && (!failed ==> os.failures == old(os.failures))
      invariant failed ==> os.transients < old(os.transients) || os.failures > old(os.failures)
      decreases !eof && !failed, |Stdin(os.k)|
    {
      ghost var input := Stdin(os.k);
      ghost var c, done;
      eof, failed, c, done := PushOne(os, s);
      ghost var part := Encode(PushPacket(c))[..done];
      Regroup(Wire(k, s), wire, part);
      if failed {
        torn := part;
      } else if !eof {
        assert part == Encode(PushPacket(c));
        PushingGoesOn(Stdin(k), input, wire, cuts, c, Stdin(os.k));
        cuts := cuts + [c];
      }
      wire := wire + part;
    }
    code := if failed then 1 else 0;
  }

  lemma FlattenPrefix(cuts: seq<seq<byte>>, m: nat)
    requires m <= |cuts|
    ensures Flatten(cuts[..m]) <= Flatten(cuts)
  {
    FlattenConcat(cuts[..m], cuts[m..]);
    assert cuts[..m] + cuts[m..] == cuts;
  }

  /** End to end: whatever `push` was given, and whether or not it failed, the
      terminal is given a beginning of it on this connection's behalf; all of it if
      `push` succeeded and no whole packet is left unread. */
  lemma PushedInputIsTyped(input: seq<byte>, code: int, cuts: seq<seq<byte>>, torn: seq<byte>,
                           w: World, es: seq<Event>, f: Fd) returns (typed: seq<byte>)
    requires PushOutcome(input, Unread(w, f), code, cuts, torn)
    requires Inv(w) && Legal(w, es) && Stays(w, es, f) && NothingLost(w, es, f) && TakenWhole(es, f)
    ensures typed <= input && TypedBy(After(w, es).kernel.ptyIn, f) == TypedBy(w.kernel.ptyIn, f) + typed
    ensures code == 0 && |Unread(After(w, es), f)| < PACKET_SIZE ==>
      TypedBy(After(w, es).kernel.ptyIn, f) == TypedBy(w.kernel.ptyIn, f) + input
  {
    PushIsIdentity(w, es, f, cuts, torn);
    var m := |PacketsOf(es, f)|;
    FlattenPrefix(cuts, m);
    typed := Flatten(cuts[..m]);
  }

  // ---- attach --------------------------------------------------------------

  /** The opening of an attachment: Attach, then Redraw with the window size. */
  function Opening(skipRing: bool, redraw: byte, size: seq<byte>): seq<Packet>
    requires |size| == 8
  {
    [Control(Attach, if skipRing then 1 else 0), Pkt(Redraw.ToU8(), redraw, size)]
  }

  lemma EncodeOneByOne(ps: seq<Packet>, p: Packet)
    ensures EncodeAll(ps + [p]) == EncodeAll(ps) + Encode(p)
  {
    EncodeAllConcat(ps, [p]);
    assert EncodeAll([p]) == Encode(p) + EncodeAll([p][1..]);
  }

  lemma EncodeThree(p: Packet, q: Packet, r: Packet)
    ensures EncodeAll([p]) == Encode(p) && EncodeAll([p, q]) == Encode(p) + Encode(q)
    ensures EncodeAll([p, q, r]) == Encode(p) + Encode(q) + Encode(r)
  {
    EncodeOneByOne([], p);
    EncodeOneByOne([p], q);
    EncodeOneByOne([p, q], r);
    assert [] + [p] == [p] && [p] + [q] == [p, q] && [p, q] + [r] == [p, q, r];
    assert [] + Encode(p) == Encode(p);
  }

  /** The opening byte by byte: type 1, whether to skip the replay, nothing; then
      type 4, the redraw method, the window size. */
  lemma OpeningOnTheWire(skipRing: bool, redraw: byte, size: seq<byte>)
    requires |size| == 8
    ensures EncodeAll(Opening(skipRing, redraw, size)) ==
      [1, if skipRing then 1 else 0] + [0, 0, 0, 0, 0, 0, 0, 0] + ([4, redraw] + size)
  {
    EncodeThree(Opening(skipRing, redraw, size)[0], Opening(skipRing, redraw, size)[1], Control(Push, 0));
  }

  /** Send one packet after `before` have gone out whole, if they have. */
  method Send(os: Os, s: Fd, p: Packet, ghost start: seq<byte>, ghost before: seq<Packet>, ghost soFar: bool)
    returns (ok: bool)
    requires Connected(os.k, s)
    requires soFar ==> Wire(os.k, s) == start + EncodeAll(before)
    modifies os
    ensures Connected(os.k, s) && Stdin(os.k) == Stdin(old(os.k))
    ensures soFar && ok ==> Wire(os.k, s) == start + EncodeAll(before + [p])
    ensures soFar ==> start <= Wire(os.k, s) <= start + EncodeAll(before + [p])
    ensures os.transients <= old(os.transients) && os.failures >= old(os.failures)
    ensures ok || os.transients < old(os.transients) || os.failures > old(os.failures)
  {
    ghost var done;
    var w;
    w, done := WriteTo(os, s, p);
    ok := w.Ok?;
    EncodeOneByOne(before, p);
    if soFar {
      Regroup(start, EncodeAll(before), Encode(p)[..done]);
      Regroup(start, EncodeAll(before), Encode(p));
      assert ok ==> Encode(p)[..done] == Encode(p);
    }
  }

  /** `attach`: on success the opening is on the wire, and the event loop starts; on
      failure a beginning of it is. */
  method AttachSession(os: Os, s: Fd, skipRing: bool, redraw: byte, size: seq<byte>) returns (code: int)
    requires Connected(os.k, s) && |size| == 8
    modifies os
    ensures code == 0 ==> Wire(os.k, s) == Wire(old(os.k), s) + EncodeAll(Opening(skipRing, redraw, size))
    ensures Wire(old(os.k), s) <= Wire(os.k, s) <= Wire(old(os.k), s) + EncodeAll(Opening(skipRing, redraw, size))
    ensures Connected(os.k, s) && Stdin(os.k) == Stdin(old(os.k))
    ensures code == 0 || code == 1
    ensures code == 1 ==> os.transients < old(os.transients) || os.failures > old(os.failures)
  {
    ghost var start := Wire(os.k, s);
    var first := Control(Attach, if skipRing then 1 else 0);
    var second := Pkt(Redraw.ToU8(), redraw, size);
    assert [] + [first] == [first] && [first] + [second] == Opening(skipRing, redraw, size);
    EncodeOneByOne([first], second);
    var ok := Send(os, s, first, start, [], true);
    if !ok {
      return 1;
    }
    ok := Send(os, s, second, start, [first], true);
    code := if ok then 0 else 1;
  }

  // ---- the interactive loop ------------------------------------------------

  /** What one piece of typed input made the client do. */
  datatype Act =
    | Idle                                                   // nothing to read yet
    | Forward(chunk: seq<byte>)                              // typed input
    | Suspend(typed: seq<byte>, redraw: byte, size: seq<byte>)   // the suspend key, until resumed
    | Resize(size: seq<byte>)                                // window change
    | Leave                                                  // the detach key, end of input or an error

  predicate ActOk(a: Act) {
    match a
    case Forward(c) => 0 < |c| <= 8
    case Suspend(c, _, size) => 0 < |c| <= 8 && |size| == 8
    case Resize(size) => |size| == 8
    case _ => true
  }

  function ActPackets(a: Act): seq<Packet>
    requires ActOk(a)
  {
    match a
    case Forward(c) => [PushPacket(c)]
    case Suspend(c, redraw, size) =>
      [PushPacket(c).(msgType := Detach.ToU8()), Control(Attach, 0), Pkt(Redraw.ToU8(), redraw, size)]
    case Resize(size) => [Pkt(Winch.ToU8(), 0, size)]
    case _ => []
  }

  function Padded(c: seq<byte>): seq<byte> {
    if |c| <= 8 then c + [0, 0, 0, 0, 0, 0, 0, 0][|c|..] else c
  }

  /** What each act puts on the wire, byte by byte.  The Detach of a suspension is
      the packet that was about to be pushed, with type 2 instead of 0. */
  lemma ActsOnTheWire(a: Act)
    requires ActOk(a)
    ensures EncodeAll(ActPackets(a)) ==
      match a
      case Forward(c) => [0, |c|] + Padded(c)
      case Suspend(c, redraw, size) =>
        [2, |c|] + Padded(c) + ([1, 0] + [0, 0, 0, 0, 0, 0, 0, 0]) + ([4, redraw] + size)
      case Resize(size) => [3, 0] + size
      case _ => []
  {
    var ps := ActPackets(a);
    match a
    case Suspend(_, _, _) => EncodeThree(ps[0], ps[1], ps[2]);
    case Forward(_) => EncodeThree(ps[0], ps[0], ps[0]);
    case Resize(_) => EncodeThree(ps[0], ps[0], ps[0]);
    case _ =>
  }

  /** One turn of standard input.  The suspend key comes first: Detach goes out,
      the client stops, and once resumed asks for a fresh attachment; the detach
      key just leaves; everything else is forwarded. */
  method HandleStdinData(os: Os, s: Fd, suspendKey: byte, noSuspend: bool, detachKey: int,
                         redraw: byte, size: seq<byte>)
    returns (act: Act, resized: bool, ghost chunk: seq<byte>, ghost whole: bool)
    requires Connected(os.k, s) && |size| == 8
    modifies os
    ensures chunk + Stdin(os.k) == Stdin(old(os.k)) && |chunk| <= 8
    ensures whole ==> ActOk(act) && Wire(os.k, s) == Wire(old(os.k), s) + EncodeAll(ActPackets(act))
    ensures chunk == [] ==> act == Idle || act == Leave
    ensures act == Idle ==> os.transients < old(os.transients)
    ensures chunk == [] && act == Leave ==> Stdin(old(os.k)) == [] || os.failures > old(os.failures)
    ensures whole || os.transients < old(os.transients) || os.failures > old(os.failures)
    ensures chunk != [] ==>
      && (!noSuspend && chunk[0] == suspendKey ==> act == Suspend(chunk, redraw, size))
      && ((noSuspend || chunk[0] != suspendKey) && chunk[0] == detachKey ==> act == Leave)
      && ((noSuspend || chunk[0] != suspendKey) && chunk[0] != detachKey ==> act == Forward(chunk))
    ensures resized <==> act.Forward? && chunk[0] == CTRL_L
  {
    act, resized, chunk, whole := Idle, false, [], true;
    ghost var k := os.k;
    var r, pkt := ReadInput(os);
    if r.Interrupted? || r.Again? {
      return;
    }
    if r.Failed? || r.n == 0 {
      act := Leave;
      return;
    }
    chunk := Stdin(k)[..r.n];
    act, resized, whole := HandleKey(os, s, pkt, suspendKey, noSuspend, detachKey, redraw, size);
  }

  /** What to do with the bytes just read: their first is the key. */
  method HandleKey(os: Os, s: Fd, pkt: Packet, suspendKey: byte, noSuspend: bool, detachKey: int,
                   redraw: byte, size: seq<byte>)
    returns (act: Act, resized: bool, ghost whole: bool)
    requires Connected(os.k, s) && |size| == 8 && 0 < |PushPayload(pkt)| && pkt == PushPacket(PushPayload(pkt))
    modifies os
    ensures Stdin(os.k) == Stdin(old(os.k))
    ensures whole ==> ActOk(act) && Wire(os.k, s) == Wire(old(os.k), s) + EncodeAll(ActPackets(act))
    ensures whole || os.transients < old(os.transients) || os.failures > old(os.failures)
    ensures var chunk := PushPayload(pkt);
      && act == (if !noSuspend && chunk[0] == suspendKey then Suspend(chunk, redraw, size)
                 else if chunk[0] == detachKey then Leave
                 else Forward(chunk))
      && (resized <==> act.Forward? && chunk[0] == CTRL_L)
  {
    resized, whole := false, true;
    assert pkt.data[0] == PushPayload(pkt)[0];
    if !noSuspend && pkt.data[0] == suspendKey {
      act := Suspend(PushPayload(pkt), redraw, size);
      whole := SendSuspend(os, s, pkt, redraw, size);
    } else if detachKey >= 0 && pkt.data[0] == detachKey {
      act := Leave;
      assert Wire(os.k, s) + [] == Wire(os.k, s);
    } else {
      resized := pkt.data[0] == CTRL_L;
      act := Forward(PushPayload(pkt));
      var ok := Send(os, s, pkt, Wire(os.k, s), [], true);
      assert [] + [pkt] == ActPackets(act);
      whole := ok;
    }
  }

  /** The read packet itself, relabelled, is the Detach; then Attach and Redraw. */
  method SendSuspend(os: Os, s: Fd, pkt: Packet, redraw: byte, size: seq<byte>) returns (ghost whole: bool)
    requires Connected(os.k, s) && |size| == 8 && 0 < |PushPayload(pkt)| && pkt == PushPacket(PushPayload(pkt))
    modifies os
    ensures Connected(os.k, s) && Stdin(os.k) == Stdin(old(os.k))
    ensures whole ==>
      Wire(os.k, s) == Wire(old(os.k), s) + EncodeAll(ActPackets(Suspend(PushPayload(pkt), redraw, size)))
    ensures whole || os.transients < old(os.transients) || os.failures > old(os.failures)
  {
    ghost var start := Wire(os.k, s);
    var p1 := pkt.(msgType := Detach.ToU8());
    var p2 := Control(Attach, 0);
    var p3 := Pkt(Redraw.ToU8(), redraw, size);
    var ok1 := Send(os, s, p1, start, [], true);
    assert [] + [p1] == [p1];
    var ok2 := Send(os, s, p2, start, [p1], ok1);
    assert [p1] + [p2] == [p1, p2];
    var ok3 := Send(os, s, p3, start, [p1, p2], ok1 && ok2);
    assert [p1, p2] + [p3] == ActPackets(Suspend(PushPayload(pkt), redraw, size));
    whole := ok1 && ok2 && ok3;
  }

  // ---- the whole conversation ----------------------------------------------

  ghost predicate ActsOk(acts: seq<Act>) {
    forall j :: 0 <= j < |acts| ==> ActOk(acts[j])
  }

  /** Everything an attached client writes. */
  function Conversation(opening: seq<Packet>, acts: seq<Act>): seq<Packet>
    requires forall j :: 0 <= j < |acts| ==> ActOk(acts[j])
  {
    if acts == [] then opening
    else Conversation(opening, acts[..|acts| - 1]) + ActPackets(acts[|acts| - 1])
  }

  lemma ControlSnoc(ps: seq<Packet>, p: Packet)
    ensures
      var t := FromU8(p.msgType);
      && (LastControl(ps + [p]) <==> t == Some(Attach) || (t != Some(Detach) && LastControl(ps)))
      && (Alternates(ps + [p]) <==>
            Alternates(ps) && (t == Some(Attach) ==> !LastControl(ps)) && (t == Some(Detach) ==> LastControl(ps)))
  {
    assert (ps + [p])[..|ps|] == ps;
  }

  lemma ActKeepsAlternating(ps: seq<Packet>, a: Act)
    requires ActOk(a) && Alternates(ps) && LastControl(ps)
    ensures Alternates(ps + ActPackets(a)) && LastControl(ps + ActPackets(a))
  {
    var qs := ActPackets(a);
    match a
    case Suspend(_, _, _) =>
      ControlSnoc(ps, qs[0]);
      ControlSnoc(ps + [qs[0]], qs[1]);
      ControlSnoc(ps + [qs[0]] + [qs[1]], qs[2]);
      assert ps + qs == ps + [qs[0]] + [qs[1]] + [qs[2]];
    case Forward(_) => ControlSnoc(ps, qs[0]);
    case Resize(_) => ControlSnoc(ps, qs[0]);
    case _ => assert ps + qs == ps;
  }

  /** However it is used, an attaching client's Attach and Detach packets come in turn. */
  lemma {:induction false} ConversationAlternates(skipRing: bool, redraw: byte, size: seq<byte>, acts: seq<Act>)
    requires |size| == 8 && ActsOk(acts)
    ensures
      var ps := Conversation(Opening(skipRing, redraw, size), acts);
      Alternates(ps) && LastControl(ps)
  {
    var opening := Opening(skipRing, redraw, size);
    if acts == [] {
      ControlSnoc([], opening[0]);
      ControlSnoc([opening[0]], opening[1]);
      assert opening == [] + [opening[0]] + [opening[1]];
    } else {
      var before := acts[..|acts| - 1];
      ConversationAlternates(skipRing, redraw, size, before);
      ActKeepsAlternating(Conversation(opening, before), acts[|acts| - 1]);
    }
  }
}
