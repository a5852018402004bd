/** What every step of the daemon keeps: descriptor ownership, the ring's
    meaning, cursors inside the ring. */
module DaemonSafety {
  import opened Bytes
  import opened KernelModel
  import opened ScrollbackRing
  import opened Protocol
  import opened DaemonModel

  /** Descriptor ownership: no two clients share a descriptor, the clients'
      descriptors are exactly the open connections, and every descriptor was
      handed out as often as it was closed, once more while it is open. */
  ghost predicate OwnsDescriptors(w: World) {
    && DistinctFds(w.clients)
    && Fds(w.clients) == w.kernel.sent.Keys == w.kernel.inbox.Keys
    && w.kernel.accepts == w.kernel.closes + multiset(w.kernel.sent.Keys)
  }

  /** The ring holds the tail of the output. */
  ghost predicate RingIsTail(w: World) {
    && w.ring.Valid()
    && w.ring.Contents() == Last(SCROLLBACK_SIZE, Flatten(w.kernel.shown))
  }

  /** A client's replay cursor lies inside the ring. */
  ghost predicate CursorsInRing(w: World) {
    forall c <- w.clients :: c.replayHead < SCROLLBACK_SIZE && c.replayRemaining <= w.ring.len
  }

  ghost predicate Inv(w: World) {
    OwnsDescriptors(w) && RingIsTail(w) && CursorsInRing(w)
  }

  /** The descriptors left when some clients are filtered out. */
  lemma FdsOfRest(cs: seq<Client>, rest: seq<Client>, gone: set<Fd>)
    requires forall c: Client :: c in rest <==> c in cs && c.fd !in gone
    ensures Fds(rest) == Fds(cs) - gone
  {
    forall f | f in Fds(cs) - gone ensures f in Fds(rest) {
      var c :| c in cs && c.fd == f;
      assert c in rest;
    }
  }

  /** Closing open descriptors keeps the books balanced. */
  lemma ClosingBalances(k: Kernel, gone: set<Fd>)
    requires gone <= k.sent.Keys && k.accepts == k.closes + multiset(k.sent.Keys)
    ensures ClosedAll(k, gone).accepts == ClosedAll(k, gone).closes + multiset(ClosedAll(k, gone).sent.Keys)
  {
    assert multiset(k.sent.Keys) == multiset(gone) + multiset(k.sent.Keys - gone);
  }

  lemma ClosedIsClosedAll(k: Kernel, fd: Fd)
    ensures k.Closed(fd) == ClosedAll(k, {fd})
  {
  }

  lemma DroppedKeeps(w: World, i: nat)
    requires Inv(w) && i < |w.clients|
    ensures Inv(Dropped(w, i))
  {
    var w' := Dropped(w, i);
    var fd := w.clients[i].fd;
    SwapRemovedIsRemoval(w.clients, i);
    FdsOfRest(w.clients, w'.clients, {fd});
    ClosedIsClosedAll(w.kernel, fd);
    ClosingBalances(w.kernel, {fd});
  }

  lemma UpdateKeeps(w: World, i: nat, c': Client, bytes: seq<byte>)
    requires Inv(w) && i < |w.clients| && c'.fd == w.clients[i].fd && w.kernel.IsOpen(c'.fd)
    requires c'.replayHead < SCROLLBACK_SIZE && c'.replayRemaining <= w.ring.len
    ensures Inv(w.(clients := w.clients[i := c'], kernel := w.kernel.Sent(c'.fd, bytes)))
  {
    UpdateIsLocal(w.clients, i, c');
    var k' := w.kernel.Sent(c'.fd, bytes);
    assert k'.sent.Keys == w.kernel.sent.Keys;
  }

  lemma ConsumeKeeps(w: World, fd: Fd, n: nat)
    requires Inv(w) && w.kernel.IsOpen(fd) && n <= |w.kernel.inbox[fd]|
    ensures Inv(w.(kernel := w.kernel.Consumed(fd, n)))
  {
    assert w.kernel.Consumed(fd, n).inbox.Keys == w.kernel.inbox.Keys;
  }

  /** Typing, signals and window sizes are nobody's connection. */
  lemma TerminalKeeps(w: World, k': Kernel)
    requires Inv(w) && k'.sent == w.kernel.sent && k'.inbox == w.kernel.inbox
    requires k'.accepts == w.kernel.accepts && k'.closes == w.kernel.closes && k'.shown == w.kernel.shown
    ensures Inv(w.(kernel := k'))
  {
  }

  /** The packets that are about the terminal and its child only. */
  function TerminalAnswer(w: World, i: nat, pkt: Packet, n: nat): (k': Kernel)
    requires i < |w.clients| && n <= Room(w.ring, pkt)
    ensures k'.sent == w.kernel.sent && k'.inbox == w.kernel.inbox
    ensures k'.accepts == w.kernel.accepts && k'.closes == w.kernel.closes && k'.shown == w.kernel.shown
  {
    var c, k := w.clients[i], w.kernel;
    match FromU8(pkt.msgType)
    case Some(Push) => k.Typed(Pushed(c.fd, PushPayload(pkt)[..n]))
    case Some(Winch) => k.Resized(pkt.data)
    case Some(Redraw) =>
      if pkt.len == REDRAW_CTRL_L then k.Resized(pkt.data).Typed(CtrlL(c.fd, [CTRL_L][..n]))
      else if pkt.len == REDRAW_WINCH then k.Resized(pkt.data).Signalled(SIGWINCH)
      else k.Resized(pkt.data)
    case Some(Kill) => k.Signalled(if pkt.len != 0 then pkt.len else SIGTERM)
    case _ => k
  }

  lemma AnswerKeeps(w: World, i: nat, pkt: Packet, n: nat)
    requires Inv(w) && i < |w.clients| && w.kernel.IsOpen(w.clients[i].fd) && n <= Room(w.ring, pkt)
    ensures Inv(Answer(w, i, pkt, n))
  {
    var c := w.clients[i];
    match FromU8(pkt.msgType)
    case Some(Attach) =>
      UpdateKeeps(w, i, AttachAnswer(c, w.ring, pkt, n),
                  if WantsReplay(w.ring, pkt) then Slice(w.ring.buf, w.ring.head, n) else []);
    case Some(Detach) =>
      UpdateKeeps(w, i, c.(attached := false), []);
      SentNothing(w.kernel, c.fd);
    case Some(ForceDetach) => DroppedKeeps(w, i);
    case Some(Info) => DroppedKeeps(w, i);
    case None =>
    case _ => TerminalKeeps(w, TerminalAnswer(w, i, pkt, n));
  }

  lemma OneMore(closes: multiset<Fd>, open: set<Fd>, fd: Fd)
    requires fd !in open
    ensures closes + multiset(open) + multiset{fd} == closes + multiset(open + {fd})
  {
    assert multiset(open + {fd}) == multiset(open) + multiset{fd};
  }

  lemma AcceptingBalances(k: Kernel, fd: Fd, stream: seq<byte>)
    requires fd !in k.sent && k.accepts == k.closes + multiset(k.sent.Keys)
    ensures k.Accepted(fd, stream).sent.Keys == k.sent.Keys + {fd}
    ensures k.Accepted(fd, stream).inbox.Keys == k.inbox.Keys + {fd}
    ensures k.Accepted(fd, stream).accepts == k.closes + multiset(k.sent.Keys + {fd})
  {
    OneMore(k.closes, k.sent.Keys, fd);
  }

  lemma JoinedFds(cs: seq<Client>, c: Client)
    requires DistinctFds(cs) && c.fd !in Fds(cs)
    ensures DistinctFds(cs + [c]) && Fds(cs + [c]) == Fds(cs) + {c.fd}
  {
    var all := cs + [c];
    assert all[|cs|] == c;
    forall f | f in Fds(cs) ensures f in Fds(all) {
      var d :| d in cs && d.fd == f;
      assert d in all;
    }
    assert forall d <- cs :: d.fd in Fds(cs);
  }

  lemma JoinKeeps(w: World, e: Event)
    requires Inv(w) && Enabled(w, e) && e.Join?
    ensures Inv(Apply(w, e))
  {
    AcceptingBalances(w.kernel, e.fd, e.stream);
    JoinedFds(w.clients, NewClient(e.fd, e.pid));
  }

  /** A connection refused at once leaves only the two counters changed. */
  lemma RefuseKeeps(w: World, e: Event)
    requires Inv(w) && Enabled(w, e) && e.Refuse?
    ensures Inv(Apply(w, e))
    ensures Apply(w, e).kernel.sent == w.kernel.sent && Apply(w, e).kernel.inbox == w.kernel.inbox
  {
    var k' := w.kernel.Accepted(e.fd, e.stream).Closed(e.fd);
    assert k'.sent == w.kernel.sent;
    assert k'.inbox == w.kernel.inbox;
    assert k'.accepts == k'.closes + multiset(k'.sent.Keys);
  }

  lemma GoneKeeps(w: World, w': World, gone: set<Fd>)
    requires Inv(w) && gone <= Fds(w.clients)
    requires w'.clients == Without(w.clients, gone) && RingIsTail(w') && w'.ring.len >= w.ring.len
    requires w'.kernel.sent.Keys == w.kernel.sent.Keys - gone
    requires w'.kernel.inbox == w.kernel.inbox - gone
    requires w'.kernel.accepts == w.kernel.accepts && w'.kernel.closes == w.kernel.closes + multiset(gone)
    ensures Inv(w')
  {
    WithoutIsFilter(w.clients, gone);
    FdsOfRest(w.clients, w'.clients, gone);
    ClosingBalances(w.kernel, gone);
  }

  lemma OutputKeeps(w: World, e: Event)
    requires Inv(w) && Enabled(w, e) && e.Output?
    ensures Inv(Apply(w, e))
  {
    var w' := Apply(w, e);
    AppendKeepsLast(w.ring, e.data);
    FlattenSnoc(w.kernel.shown, e.data);
    LastOfGrownTail(SCROLLBACK_SIZE, Flatten(w.kernel.shown), e.data);
    GoneKeeps(w, w', e.bad);
  }

  /** Every step of the daemon keeps the invariant. */
  lemma StepKeeps(w: World, e: Event)
    requires Inv(w) && Enabled(w, e)
    ensures Inv(Apply(w, e))
  {
    match e
    case Join(_, _, _) => JoinKeeps(w, e);
    case Refuse(_, _, _) => RefuseKeeps(w, e);
    case Serve(fd, at, got, n) =>
      match got {
        case Gone => DroppedKeeps(w, at);
        case Partial(lost) => ConsumeKeeps(w, fd, lost);
        case Msg(pkt) =>
          ConsumeKeeps(w, fd, PACKET_SIZE);
          AnswerKeeps(w.(kernel := w.kernel.Consumed(fd, PACKET_SIZE)), at, pkt, n);
      }
    case Evict => GoneKeeps(w, Apply(w, e), AttachedFds(w.clients));
    case Drain(fd, at, n) =>
      var c := w.clients[at];
      UpdateKeeps(w, at, Apply(w, e).clients[at], Slice(w.ring.buf, c.replayHead, n));
    case Output(_, _, _) => OutputKeeps(w, e);
  }

  /** ... so every run does. */
  lemma {:induction false} RunKeeps(w: World, es: seq<Event>)
    requires Inv(w) && Legal(w, es)
    ensures Inv(After(w, es))
  {
    if es == [] {
    } else {
      var before := es[..|es| - 1];
      RunKeeps(w, before);
      StepKeeps(After(w, before), es[|es| - 1]);
    }
  }

  lemma AnswerOpensNothing(w: World, i: nat, pkt: Packet, n: nat)
    requires i < |w.clients| && w.ring.Valid() && w.kernel.IsOpen(w.clients[i].fd) && n <= Room(w.ring, pkt)
    ensures Answer(w, i, pkt, n).kernel.sent.Keys <= w.kernel.sent.Keys
  {
    match FromU8(pkt.msgType)
    case _ =>
  }

  /** Only an accept opens a connection. */
  lemma OnlyJoinOpens(w: World, e: Event)
    requires Inv(w) && Enabled(w, e) && !e.Join?
    ensures Apply(w, e).kernel.sent.Keys <= w.kernel.sent.Keys
  {
    if e.Serve? && e.got.Msg? {
      AnswerOpensNothing(w.(kernel := w.kernel.Consumed(e.fd, PACKET_SIZE)), e.at, e.got.pkt, e.n);
    }
  }

  /** A replay that moved on by `n` bytes was a step. */
  lemma DrainIsStep(w: World, at: nat, n: nat, w': World)
    requires Inv(w) && at < |w.clients| && 0 < w.clients[at].replayRemaining && n <= w.clients[at].replayRemaining
    requires w.clients[at] in w.clients && w.kernel.IsOpen(w.clients[at].fd)
    requires
      var c := w.clients[at];
      w' == w.(clients := w.clients[at := DrainAnswer(c, n)],
               kernel := w.kernel.Sent(c.fd, Slice(w.ring.buf, c.replayHead, n)))
    ensures Enabled(w, Drain(w.clients[at].fd, at, n)) && w' == Apply(w, Drain(w.clients[at].fd, at, n))
  {
  }

  /** One step is a run. */
  lemma OneStep(w: World, e: Event)
    requires Inv(w) && Enabled(w, e)
    ensures Legal(w, [e]) && After(w, [e]) == Apply(w, e) && Inv(Apply(w, e))
    ensures !e.Join? ==> Apply(w, e).kernel.sent.Keys <= w.kernel.sent.Keys
  {
    LegalSnoc(w, [], e);
    assert [] + [e] == [e];
    StepKeeps(w, e);
    if !e.Join? {
      OnlyJoinOpens(w, e);
    }
  }

  /** A run grows by a step. */
  lemma RunGrows(w: World, es: seq<Event>, e: Event)
    requires Legal(w, es) && Inv(After(w, es)) && Enabled(After(w, es), e)
    ensures Legal(w, es + [e]) && After(w, es + [e]) == Apply(After(w, es), e)
    ensures Inv(After(w, es + [e]))
    ensures !e.Join? ==> After(w, es + [e]).kernel.sent.Keys <= After(w, es).kernel.sent.Keys
  {
    LegalSnoc(w, es, e);
    StepKeeps(After(w, es), e);
    if !e.Join? {
      OnlyJoinOpens(After(w, es), e);
    }
  }
}
