/** The text reply of handle_info in src/session_daemon.rs: who is attached. */
module InfoReply {
  import opened Bytes
  import opened KernelModel
  import opened ScrollbackRing
  import opened Protocol
  import opened Logs
  import opened DaemonModel
  import opened Batch
  import opened FanOut

  const ATTACHED_LABEL: seq<byte> := [97, 116, 116, 97, 99, 104, 101, 100, 58, 32]   // "attached: "
  const PID_LABEL: seq<byte> := [112, 105, 100, 58, 32]                              // "pid: "

  function Attached(cs: seq<Client>): seq<Client> {
    if cs == [] then []
    else Attached(cs[..|cs| - 1]) + (if cs[|cs| - 1].attached then [cs[|cs| - 1]] else [])
  }

  /** It lists exactly the attached clients, in their order. */
  lemma {:induction false} AttachedIsFilter(cs: seq<Client>)
    ensures forall c: Client :: c in Attached(cs) <==> c in cs && c.attached
    ensures IsSubsequence(Attached(cs), cs)
  {
    if cs == [] {
    } else {
      var rest, last := cs[..|cs| - 1], cs[|cs| - 1];
      AttachedIsFilter(rest);
      assert cs == rest + [last];
      if last.attached {
        assert Attached(cs)[..|Attached(cs)| - 1] == Attached(rest);
      } else {
        assert Attached(cs) == Attached(rest);
      }
    }
  }

  lemma {:induction false} AttachedCount(cs: seq<Client>)
    requires DistinctFds(cs)
    ensures |Attached(cs)| == |AttachedFds(cs)|
  {
    if cs == [] {
    } else {
      AttachedCount(cs[..|cs| - 1]);
      AttachedPrefix(cs, |cs| - 1);
      assert cs[..|cs| - 1 + 1] == cs;
    }
  }

  function InfoHeader(attached: nat): seq<byte> {
    ATTACHED_LABEL + Decimal(attached) + [LF]
  }

  function InfoLine(c: Client): seq<byte> {
    PID_LABEL + Decimal(c.peerPid) + [LF]
  }

  /** The header, then a line for each of `cs`. */
  function InfoParts(attached: nat, cs: seq<Client>): seq<seq<byte>> {
    if cs == [] then [InfoHeader(attached)] else InfoParts(attached, cs[..|cs| - 1]) + [InfoLine(cs[|cs| - 1])]
  }

  lemma {:induction false} PartsOfInfo(attached: nat, cs: seq<Client>)
    ensures |InfoParts(attached, cs)| == 1 + |cs| && InfoParts(attached, cs)[0] == InfoHeader(attached)
  {
    if cs == [] {
    } else {
      PartsOfInfo(attached, cs[..|cs| - 1]);
    }
  }

  lemma {:induction false} PidLine(attached: nat, cs: seq<Client>, j: nat)
    requires j < |cs| && |InfoParts(attached, cs)| == 1 + |cs|
    ensures InfoParts(attached, cs)[1 + j] == InfoLine(cs[j])
  {
    var before := cs[..|cs| - 1];
    PartsOfInfo(attached, before);
    if j < |before| {
      PidLine(attached, before, j);
    }
  }

  /** The reply says how many clients are attached, and then the pid of each. */
  lemma InfoReads(attached: nat, cs: seq<Client>)
    ensures |InfoParts(attached, cs)| == 1 + |cs| && Says(InfoParts(attached, cs)[0], "attached: ", attached)
    ensures forall j :: 0 <= j < |cs| ==> Says(InfoParts(attached, cs)[1 + j], "pid: ", cs[j].peerPid)
  {
    PartsOfInfo(attached, cs);
    LabelledNumber(ATTACHED_LABEL, "attached: ", attached);
    forall j | 0 <= j < |cs| ensures Says(InfoParts(attached, cs)[1 + j], "pid: ", cs[j].peerPid) {
      PidLine(attached, cs, j);
      LabelledNumber(PID_LABEL, "pid: ", cs[j].peerPid);
    }
  }

  /** `reply` consists of a beginning of each part, in order. */
  ghost predicate CutFrom(reply: seq<byte>, parts: seq<seq<byte>>)
    decreases |parts|
  {
    if parts == [] then reply == []
    else
      exists k: nat | k <= |reply| :: CutFrom(reply[..k], parts[..|parts| - 1]) && reply[k..] <= parts[|parts| - 1]
  }

  lemma CutFromMore(reply: seq<byte>, parts: seq<seq<byte>>, some: seq<byte>, part: seq<byte>)
    requires CutFrom(reply, parts) && some <= part
    ensures CutFrom(reply + some, parts + [part])
  {
    assert (parts + [part])[..|parts|] == parts;
    assert (reply + some)[..|reply|] == reply && (reply + some)[|reply|..] == some;
  }

  /** The whole reply to an Info. */
  function InfoText(cs: seq<Client>): seq<byte> {
    Flatten(InfoParts(|Attached(cs)|, Attached(cs)))
  }

  /** Between `before` and `now` a reply about `cs` was given, cut short in places
      unless it was `smooth`. */
  ghost predicate Informed(before: seq<byte>, now: seq<byte>, cs: seq<Client>, smooth: bool) {
    && before <= now
    && CutFrom(now[|before|..], InfoParts(|Attached(cs)|, Attached(cs)))
    && (smooth ==> now == before + InfoText(cs))
  }

  /** What a turn taken among `cs` tells its client in words. */
  function ReplyTo(cs: seq<Client>, e: Event): seq<byte> {
    if Carries(e, Info) then InfoText(cs) else []
  }

  /** What a packet asks for besides what it does to the state, by the codes on the
      wire: input typed (0), the replay of all the ring holds (1), a redraw by Ctrl-L
      (4), a reply (7). */
  lemma AsksByCode(cs: seq<Client>, ring: Ring, e: Event)
    requires e.Serve? && e.got.Msg? && ring.Valid()
    ensures var pkt := e.got.pkt;
      && OfferOf(e) == (if pkt.msgType == 0 && pkt.len > 0 then
                          [Pushed(e.fd, if pkt.len < 8 then pkt.data[..pkt.len] else pkt.data)] else [])
      && (pkt.msgType == 1 ==> Room(ring, pkt) == if pkt.len == 0 then |ring.Contents()| else 0)
      && RedrawsOf(e) == (if pkt.msgType == 4 && pkt.len == 2 then 1 else 0)
      && ReplyTo(cs, e) == (if pkt.msgType == 7 then InfoText(cs) else [])
  {
    assert e.got.pkt.data[..8] == e.got.pkt.data;
  }

  /** All that the steps of a run tell. */
  ghost function RepliesOf(w: World, es: seq<Event>): seq<byte>
    requires Legal(w, es)
  {
    if es == [] then []
    else RepliesOf(w, es[..|es| - 1]) + ReplyTo(After(w, es[..|es| - 1]).clients, es[|es| - 1])
  }

  lemma RepliesSnoc(before: seq<byte>, w: World, es: seq<Event>, e: Event)
    requires Legal(w, es) && Legal(w, es + [e])
    ensures before + RepliesOf(w, es + [e]) == before + RepliesOf(w, es) + ReplyTo(After(w, es).clients, e)
  {
    assert (es + [e])[..|es|] == es;
    Regroup(before, RepliesOf(w, es), ReplyTo(After(w, es).clients, e));
  }
}
