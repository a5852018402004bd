/** From a client's packets to what the daemon acts on: the byte stream of one
    connection, consumed packet by packet over a whole run with other clients. */
module Pipeline {
  import opened Bytes
  import opened KernelModel
  import opened Protocol
  import opened DaemonModel
  import opened DaemonSafety
  import opened Batch
  import opened ClientView
  import opened Attachment

  // ---- the stream of one connection ----------------------------------------

  /** The packets read from `f` during `es`, in order. */
  function PacketsOf(es: seq<Event>, f: Fd): seq<Packet> {
    if es == [] then []
    else
      var e := es[|es| - 1];
      PacketsOf(es[..|es| - 1], f) + (if Serves(e, f) && e.got.Msg? then [e.got.pkt] else [])
  }

  /** No read from `f` gives up in the middle of a packet, unless the packet is
      one that was never written in full. */
  ghost predicate NothingLost(w: World, es: seq<Event>, f: Fd)
    requires Legal(w, es)
    decreases |es|
  {
    es == [] ||
    (var before, e := es[..|es| - 1], es[|es| - 1];
     && NothingLost(w, before, f)
     && (Serves(e, f) && e.got.Partial? && e.got.lost > 0 ==> |Unread(After(w, before), f)| < PACKET_SIZE))
  }

  /** What one step leaves unread on a connection that survives it. */
  lemma UnreadAfter(w: World, e: Event, f: Fd)
    requires Inv(w) && Enabled(w, e) && Listed(w, f) && Listed(Apply(w, e), f)
    ensures
      if Serves(e, f) && e.got.Msg? then
        Encode(e.got.pkt) <= Unread(w, f) && Unread(Apply(w, e), f) == Unread(w, f)[PACKET_SIZE..]
      else if Serves(e, f) && e.got.Partial? then
        e.got.lost <= |Unread(w, f)| && Unread(Apply(w, e), f) == Unread(w, f)[e.got.lost..]
      else Unread(Apply(w, e), f) == Unread(w, f)
  {
    assert f in w.kernel.inbox;
    match e
    case Serve(_, _, _, _) =>
      if e.fd == f {
        OwnTurnRec(w, e);
        OwnTurnReads(w, e);
      } else {
        TurnUsesOneConnection(w, e, f);
      }
    case Evict => WithoutIsFilter(w.clients, AttachedFds(w.clients));
    case Output(_, _, bad) => WithoutIsFilter(w.clients, bad);
    case _ =>
  }

  lemma OwnTurnReads(w: World, e: Event)
    requires Enabled(w, e) && e.Serve? && !Drops(e)
    ensures e.got.Msg? ==> Unread(Apply(w, e), e.fd) == Unread(w, e.fd)[PACKET_SIZE..]
    ensures e.got.Partial? ==> Unread(Apply(w, e), e.fd) == Unread(w, e.fd)[e.got.lost..]
  {
    if e.got.Msg? {
      match FromU8(e.got.pkt.msgType) { case _ => }
    }
  }

  lemma NextPacket(ps: seq<Packet>, torn: seq<byte>, pkt: Packet)
    requires Encode(pkt) <= EncodeAll(ps) + torn && |torn| < PACKET_SIZE
    ensures ps != [] && ps[0] == pkt && (EncodeAll(ps) + torn)[PACKET_SIZE..] == EncodeAll(ps[1..]) + torn
  {
    assert ps != [];
    var rest := EncodeAll(ps[1..]) + torn;
    assert EncodeAll(ps) + torn == Encode(ps[0]) + rest;
    FirstFrame(ps[0], rest);
    EncodeIsInjective(ps[0], pkt);
    assert Encode(pkt) == (EncodeAll(ps) + torn)[..PACKET_SIZE];
  }

  /** `got` is what has been read of the packets `ps`, and `rest` encodes the others;
      the last packet may be torn, and then part of it may be gone at the end. */
  ghost predicate InStep(ps: seq<Packet>, torn: seq<byte>, got: seq<Packet>, rest: seq<byte>) {
    && |got| <= |ps| && got == ps[..|got|]
    && (rest == EncodeAll(ps[|got|..]) + torn || (|got| == |ps| && |rest| < PACKET_SIZE))
  }

  lemma ReadsNext(ps: seq<Packet>, torn: seq<byte>, got: seq<Packet>, rest: seq<byte>, pkt: Packet)
    requires InStep(ps, torn, got, rest) && Encode(pkt) <= rest && |torn| < PACKET_SIZE
    ensures InStep(ps, torn, got + [pkt], rest[PACKET_SIZE..])
  {
    var m := |got|;
    NextPacket(ps[m..], torn, pkt);
    assert ps[m..][1..] == ps[m + 1..];
    assert ps[..m] + [ps[m]] == ps[..m + 1];
  }

  /** With less than a packet left, every packet has been read. */
  lemma OnlyTornIsLeft(ps: seq<Packet>, torn: seq<byte>, got: seq<Packet>, rest: seq<byte>)
    requires InStep(ps, torn, got, rest) && |rest| < PACKET_SIZE
    ensures got == ps
  {
    EncodeAllSize(ps[|got|..]);
    assert |got| == |ps|;
    assert ps[..|ps|] == ps;
  }

  /** Whatever the fragmentation and whatever other clients do, the daemon reads
      the packets a client wrote, all of them in order, none torn; the stream may
      end in a packet that was cut off. */
  lemma {:induction false} StreamIsReadInOrder(w: World, es: seq<Event>, f: Fd, ps: seq<Packet>, torn: seq<byte>)
    requires Inv(w) && Legal(w, es) && Stays(w, es, f) && NothingLost(w, es, f)
    requires Unread(w, f) == EncodeAll(ps) + torn && |torn| < PACKET_SIZE
    ensures InStep(ps, torn, PacketsOf(es, f), Unread(After(w, es), f))
  {
    if es == [] {
      assert ps[0..] == ps;
    } else {
      var before, e := es[..|es| - 1], es[|es| - 1];
      assert es == before + [e];
      StreamIsReadInOrder(w, before, f, ps, torn);
      RunKeeps(w, before);
      StreamStep(After(w, before), before, e, f, ps, torn);
    }
  }

  lemma StreamStep(v: World, before: seq<Event>, e: Event, f: Fd, ps: seq<Packet>, torn: seq<byte>)
    requires Inv(v) && Enabled(v, e) && Listed(v, f) && Listed(Apply(v, e), f) && |torn| < PACKET_SIZE
    requires Serves(e, f) && e.got.Partial? && e.got.lost > 0 ==> |Unread(v, f)| < PACKET_SIZE
    requires InStep(ps, torn, PacketsOf(before, f), Unread(v, f))
    ensures InStep(ps, torn, PacketsOf(before + [e], f), Unread(Apply(v, e), f))
  {
    var got, rest := PacketsOf(before, f), Unread(v, f);
    assert (before + [e])[..|before|] == before;
    UnreadAfter(v, e, f);
    if Serves(e, f) && e.got.Msg? {
      ReadsNext(ps, torn, got, rest, e.got.pkt);
    } else {
      assert PacketsOf(before + [e], f) == got;
      if Serves(e, f) && e.got.Partial? && e.got.lost > 0 {
        OnlyTornIsLeft(ps, torn, got, rest);
      }
    }
  }

  // ---- pushed input --------------------------------------------------------

  /** One read of at most eight bytes as a Push packet. */
  function PushPacket(chunk: seq<byte>): (p: Packet)
    requires |chunk| <= 8
    ensures PushPayload(p) == chunk && FromU8(p.msgType) == Some(Push)
  {
    Pkt(Push.ToU8(), |chunk|, chunk + ZEROS[|chunk|..])
  }

  predicate FitsPackets(cuts: seq<seq<byte>>) {
    forall j :: 0 <= j < |cuts| ==> 0 < |cuts[j]| <= 8
  }

  function PushPackets(cuts: seq<seq<byte>>): seq<Packet>
    requires FitsPackets(cuts)
  {
    seq(|cuts|, j requires 0 <= j < |cuts| => PushPacket(cuts[j]))
  }

  /** What has been typed at the terminal on behalf of `f`. */
  function TypedBy(ptyIn: seq<PtyInput>, f: Fd): seq<byte> {
    if ptyIn == [] then []
    else
      var last := ptyIn[|ptyIn| - 1];
      TypedBy(ptyIn[..|ptyIn| - 1], f) + (if last.Pushed? && last.who == f then last.bytes else [])
  }

  /** The payloads of the Push packets among `ps`. */
  function Payloads(ps: seq<Packet>): seq<byte> {
    if ps == [] then []
    else
      var p := ps[|ps| - 1];
      Payloads(ps[..|ps| - 1]) + (if FromU8(p.msgType) == Some(Push) then PushPayload(p) else [])
  }

  lemma PayloadsSnoc(ps: seq<Packet>, p: Packet)
    ensures Payloads(ps + [p]) == Payloads(ps) + (if FromU8(p.msgType) == Some(Push) then PushPayload(p) else [])
  {
    assert (ps + [p])[..|ps|] == ps;
  }

  lemma {:induction false} PayloadsOfPushPackets(cuts: seq<seq<byte>>)
    requires FitsPackets(cuts)
    ensures Payloads(PushPackets(cuts)) == Flatten(cuts)
  {
    if cuts == [] {
    } else {
      var before := cuts[..|cuts| - 1];
      PayloadsOfPushPackets(before);
      assert PushPackets(cuts) == PushPackets(before) + [PushPacket(cuts[|cuts| - 1])];
      PayloadsSnoc(PushPackets(before), PushPacket(cuts[|cuts| - 1]));
    }
  }

  /** The terminal takes every pushed payload of `f` whole. */
  ghost predicate TakenWhole(es: seq<Event>, f: Fd) {
    forall e <- es :: Serves(e, f) && Carries(e, Push) ==> e.n == |PushPayload(e.got.pkt)|
  }

  lemma TypedSnoc(ptyIn: seq<PtyInput>, input: PtyInput, f: Fd)
    ensures TypedBy(ptyIn + [input], f) ==
      TypedBy(ptyIn, f) + (if input.Pushed? && input.who == f then input.bytes else [])
  {
    assert (ptyIn + [input])[..|ptyIn|] == ptyIn;
  }

  lemma TypedAfter(k: Kernel, input: PtyInput, f: Fd)
    ensures TypedBy(k.Typed(input).ptyIn, f) ==
      TypedBy(k.ptyIn, f) + (if input.Pushed? && input.who == f then input.bytes else [])
  {
    if input.bytes != [] {
      TypedSnoc(k.ptyIn, input, f);
    }
  }

  /** What a step types. */
  function TypedIn(e: Event): Option<PtyInput> {
    if Carries(e, Push) && e.n <= |PushPayload(e.got.pkt)| then Some(Pushed(e.fd, PushPayload(e.got.pkt)[..e.n]))
    else if Carries(e, Redraw) && e.got.pkt.len == REDRAW_CTRL_L && e.n <= 1 then Some(CtrlL(e.fd, [CTRL_L][..e.n]))
    else None
  }

  lemma StepTypes(w: World, e: Event)
    requires Enabled(w, e)
    ensures Apply(w, e).kernel.ptyIn ==
      if TypedIn(e).Some? then w.kernel.Typed(TypedIn(e).value).ptyIn else w.kernel.ptyIn
  {
    if e.Serve? && e.got.Msg? {
      match FromU8(e.got.pkt.msgType) { case _ => }
    }
  }

  /** With any number of clients typing, the terminal input that came from one of
      them is the payload of its own Push packets, in order. */
  lemma {:induction false} TypedIsPushed(w: World, es: seq<Event>, f: Fd)
    requires Legal(w, es) && TakenWhole(es, f)
    ensures TypedBy(After(w, es).kernel.ptyIn, f) == TypedBy(w.kernel.ptyIn, f) + Payloads(PacketsOf(es, f))
  {
    if es == [] {
      assert TypedBy(w.kernel.ptyIn, f) + [] == TypedBy(w.kernel.ptyIn, f);
    } else {
      var before, e := es[..|es| - 1], es[|es| - 1];
      assert es == before + [e];
      TypedIsPushed(w, before, f);
      StepPushes(After(w, before), e, f);
      PayloadsOfStep(before, e, f);
      Regroup(TypedBy(w.kernel.ptyIn, f), Payloads(PacketsOf(before, f)), PushedBy(e, f));
    }
  }

  /** What a step pushes on behalf of `f`. */
  function PushedBy(e: Event, f: Fd): seq<byte> {
    if Serves(e, f) && Carries(e, Push) then PushPayload(e.got.pkt) else []
  }

  lemma PayloadsOfStep(before: seq<Event>, e: Event, f: Fd)
    ensures Payloads(PacketsOf(before + [e], f)) == Payloads(PacketsOf(before, f)) + PushedBy(e, f)
  {
    assert (before + [e])[..|before|] == before;
    if Serves(e, f) && e.got.Msg? {
      PayloadsSnoc(PacketsOf(before, f), e.got.pkt);
    } else {
      assert PacketsOf(before, f) + [] == PacketsOf(before, f);
    }
  }

  lemma StepPushes(w: World, e: Event, f: Fd)
    requires Enabled(w, e) && (Serves(e, f) && Carries(e, Push) ==> e.n == |PushPayload(e.got.pkt)|)
    ensures TypedBy(Apply(w, e).kernel.ptyIn, f) == TypedBy(w.kernel.ptyIn, f) + PushedBy(e, f)
  {
    StepTypes(w, e);
    if TypedIn(e).Some? {
      TypedAfter(w.kernel, TypedIn(e).value, f);
    }
  }

  /** Push pipeline: a client whose input is cut into `cuts`, one packet a cut, the
      last packet perhaps cut off, has at every moment had exactly its first cuts
      typed, as many as packets were served; when no whole packet is left unread,
      exactly all of them. */
  lemma PushIsIdentity(w: World, es: seq<Event>, f: Fd, cuts: seq<seq<byte>>, torn: seq<byte>)
    requires FitsPackets(cuts) && Unread(w, f) == EncodeAll(PushPackets(cuts)) + torn && |torn| < PACKET_SIZE
    requires Inv(w) && Legal(w, es) && Stays(w, es, f) && NothingLost(w, es, f) && TakenWhole(es, f)
    ensures
      var m := |PacketsOf(es, f)|;
      m <= |cuts| && TypedBy(After(w, es).kernel.ptyIn, f) == TypedBy(w.kernel.ptyIn, f) + Flatten(cuts[..m])
    ensures |Unread(After(w, es), f)| < PACKET_SIZE ==>
      TypedBy(After(w, es).kernel.ptyIn, f) == TypedBy(w.kernel.ptyIn, f) + Flatten(cuts)
  {
    StreamIsReadInOrder(w, es, f, PushPackets(cuts), torn);
    TypedIsPushed(w, es, f);
    FirstCuts(cuts, |PacketsOf(es, f)|);
    if |Unread(After(w, es), f)| < PACKET_SIZE {
      OnlyTornIsLeft(PushPackets(cuts), torn, PacketsOf(es, f), Unread(After(w, es), f));
      assert cuts[..|PacketsOf(es, f)|] == cuts;
    }
  }

  lemma FirstCuts(cuts: seq<seq<byte>>, m: nat)
    requires FitsPackets(cuts) && m <= |cuts|
    ensures Payloads(PushPackets(cuts)[..m]) == Flatten(cuts[..m])
  {
    assert PushPackets(cuts)[..m] == PushPackets(cuts[..m]);
    PayloadsOfPushPackets(cuts[..m]);
  }

  lemma {:induction false} EncodeAllSize(ps: seq<Packet>)
    ensures |EncodeAll(ps)| == PACKET_SIZE * |ps|
  {
    if ps == [] {
    } else {
      EncodeAllSize(ps[1..]);
    }
  }

  // ---- protocol turns ------------------------------------------------------

  function LastControl(ps: seq<Packet>): bool {
    if ps == [] then false
    else
      var t := FromU8(ps[|ps| - 1].msgType);
      if t == Some(Attach) then true else if t == Some(Detach) then false else LastControl(ps[..|ps| - 1])
  }

  /** Attach and Detach packets come in turn, an Attach first. */
  predicate Alternates(ps: seq<Packet>) {
    ps == [] ||
    (var before, t := ps[..|ps| - 1], FromU8(ps[|ps| - 1].msgType);
     && Alternates(before)
     && (t == Some(Attach) ==> !LastControl(before))
     && (t == Some(Detach) ==> LastControl(before)))
  }

  /** A run keeps to the protocol exactly when the packets read from the client do. */
  lemma {:induction false} TurnsOfPackets(es: seq<Event>, f: Fd)
    ensures LastWordIsAttach(es, f) == LastControl(PacketsOf(es, f))
    ensures TakesTurns(es, f) <==> Alternates(PacketsOf(es, f))
  {
    if es == [] {
    } else {
      var before, e := es[..|es| - 1], es[|es| - 1];
      TurnsOfPackets(before, f);
      if Serves(e, f) && e.got.Msg? {
        var ps := PacketsOf(es, f);
        assert ps[..|ps| - 1] == PacketsOf(before, f);
      } else {
        assert PacketsOf(es, f) == PacketsOf(before, f);
      }
    }
  }

  lemma {:induction false} AlternatesPrefix(ps: seq<Packet>, m: nat)
    requires Alternates(ps) && m <= |ps|
    ensures Alternates(ps[..m])
    decreases |ps|
  {
    if m < |ps| {
      AlternatesPrefix(ps[..|ps| - 1], m);
      assert ps[..|ps| - 1][..m] == ps[..m];
    } else {
      assert ps[..m] == ps;
    }
  }

  /** End to end: a client that writes an alternating stream, and whose Detaches
      arrive after its replay, never has replay and live output mixed. */
  lemma AlternatingClientStaysApart(w: World, es: seq<Event>, f: Fd, ps: seq<Packet>, torn: seq<byte>)
    requires Inv(w) && Legal(w, es) && Stays(w, es, f) && Listed(w, f) && Silent(Rec(w, f))
    requires Unread(w, f) == EncodeAll(ps) + torn && |torn| < PACKET_SIZE && Alternates(ps) && NothingLost(w, es, f)
    requires DetachesAfterReplay(w, es, f)
    ensures Apart(Rec(After(w, es), f))
  {
    StreamIsReadInOrder(w, es, f, ps, torn);
    var m := |PacketsOf(es, f)|;
    AlternatesPrefix(ps, m);
    assert ps[..m] == PacketsOf(es, f);
    TurnsOfPackets(es, f);
    WellTimedClientStaysApart(w, es, f);
  }
}
