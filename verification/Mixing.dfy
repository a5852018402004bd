/** Concrete runs in which a client is sent the wrong bytes: the shipped client
    suspended in mid-replay, and a replay overtaken by new output. */
module Mixing {
  import opened Bytes
  import opened KernelModel
  import opened ScrollbackRing
  import opened Protocol
  import opened DaemonModel
  import opened DaemonSafety
  import opened Batch
  import opened ClientView
  import opened Attachment
  import opened Pipeline
  import opened ClientSession

  // ---- a replay overtaken by new output ------------------------------------

  const ATTACH: Packet := Control(Attach, 0)

  lemma NewByteUnderCursor(r: Ring, x: byte)
    requires r.Valid() && r.len == SCROLLBACK_SIZE
    ensures Slice(Appended(r, [x]).buf, r.head, 1) == [x]
  {
    assert r.Behind(0) == r.head;
    assert Appended(r, [x]).buf[r.head] == x;
  }

  lemma AttachServed(w: World, at: nat)
    requires Inv(w) && at < |w.clients| && Silent(w.clients[at]) && w.ring.len > 0
    requires Encode(ATTACH) <= Unread(w, w.clients[at].fd)
    ensures
      var c := w.clients[at];
      var e := Serve(c.fd, at, Msg(ATTACH), 0);
      && Enabled(w, e) && Inv(Apply(w, e)) && Apply(w, e).ring == w.ring
      && Apply(w, e).clients == w.clients[at := c.(replayHead := w.ring.head, replayRemaining := w.ring.len)]
      && SentTo(Apply(w, e), c.fd) == SentTo(w, c.fd)
  {
    var c := w.clients[at];
    assert c in w.clients && c.fd in Fds(w.clients);
    var e := Serve(c.fd, at, Msg(ATTACH), 0);
    StepKeeps(w, e);
    assert SentTo(w, c.fd) + [] == SentTo(w, c.fd);
  }

  lemma OutputPassedBy(w: World, x: byte, f: Fd)
    requires Inv(w) && f in w.kernel.sent
    ensures
      var e := Output([x], {}, {});
      && Enabled(w, e) && Inv(Apply(w, e)) && Apply(w, e).ring == Appended(w.ring, [x])
      && Apply(w, e).clients == w.clients && SentTo(Apply(w, e), f) == SentTo(w, f)
  {
    var e := Output([x], {}, {});
    StepKeeps(w, e);
    NobodyLost(w.clients);
  }

  lemma {:induction false} NobodyLost(cs: seq<Client>)
    ensures Without(cs, {}) == cs
  {
    if cs == [] {
    } else {
      NobodyLost(cs[..|cs| - 1]);
    }
  }

  lemma ByteDrained(w: World, at: nat)
    requires Inv(w) && at < |w.clients| && w.clients[at].replayRemaining > 0
    ensures
      var c := w.clients[at];
      var e := Drain(c.fd, at, 1);
      Enabled(w, e) && SentTo(Apply(w, e), c.fd) == SentTo(w, c.fd) + Slice(w.ring.buf, c.replayHead, 1)
  {
    assert w.clients[at] in w.clients && w.clients[at].fd in Fds(w.clients);
  }

  lemma Three(w: World, e1: Event, e2: Event, e3: Event)
    requires Enabled(w, e1) && Enabled(Apply(w, e1), e2) && Enabled(Apply(Apply(w, e1), e2), e3)
    ensures Legal(w, [e1, e2, e3]) && After(w, [e1, e2, e3]) == Apply(Apply(Apply(w, e1), e2), e3)
  {
    LegalSnoc(w, [], e1);
    LegalSnoc(w, [e1], e2);
    LegalSnoc(w, [e1, e2], e3);
    assert [] + [e1] == [e1] && [e1] + [e2] == [e1, e2] && [e1, e2] + [e3] == [e1, e2, e3];
  }

  /** Whenever the ring is full, a silent client that asks for a replay and whose
      socket takes nothing at first can be sent, in place of the oldest byte it was
      promised, whatever byte the terminal shows next. */
  lemma LateReplaySendsNewBytes(w: World, at: nat, x: byte)
    requires Inv(w) && at < |w.clients| && Silent(w.clients[at]) && w.ring.len == SCROLLBACK_SIZE
    requires Encode(ATTACH) <= Unread(w, w.clients[at].fd)
    ensures
      var f := w.clients[at].fd;
      var es := [Serve(f, at, Msg(ATTACH), 0), Output([x], {}, {}), Drain(f, at, 1)];
      Legal(w, es) && SentTo(After(w, es), f) == SentTo(w, f) + [x]
  {
    var f := w.clients[at].fd;
    var e1, e2, e3 := Serve(f, at, Msg(ATTACH), 0), Output([x], {}, {}), Drain(f, at, 1);
    AttachServed(w, at);
    var w1 := Apply(w, e1);
    assert w1.clients[at] in w1.clients && f in Fds(w1.clients);
    OutputPassedBy(w1, x, f);
    ByteDrained(Apply(w1, e2), at);
    NewByteUnderCursor(w.ring, x);
    Three(w, e1, e2, e3);
  }

  // ---- a client suspended in mid-replay ------------------------------------

  const FD: Fd := 7
  const NO_REDRAW: byte := 1
  const SUSPEND_KEY: byte := 26

  /** A daemon that has just started. */
  ghost function Fresh(): World {
    World([], false, Ring(seq(SCROLLBACK_SIZE, _ => 0), 0, 0), NEW_KERNEL, None)
  }

  lemma FreshIsSound()
    ensures Inv(Fresh())
  {
    assert Fresh().ring.Contents() == [];
  }

  const REDRAW: Packet := Pkt(Redraw.ToU8(), NO_REDRAW, ZEROS)
  const DETACH: Packet := PushPacket([SUSPEND_KEY]).(msgType := Detach.ToU8())
  const TALK: seq<Packet> := [ATTACH, REDRAW, DETACH, ATTACH, REDRAW]

  /** What the shipped client writes when it attaches, is suspended and resumed. */
  lemma TalkIsConversation()
    ensures
      var acts := [Suspend([SUSPEND_KEY], NO_REDRAW, ZEROS)];
      TALK == Conversation(Opening(false, NO_REDRAW, ZEROS), acts) && Alternates(TALK)
  {
    var acts := [Suspend([SUSPEND_KEY], NO_REDRAW, ZEROS)];
    assert acts[..0] == [];
    assert ActPackets(acts[0]) == [DETACH, ATTACH, REDRAW];
    ConversationAlternates(false, NO_REDRAW, ZEROS, acts);
  }

  /** The run `es` from a fresh daemon has led to a single client with record `c`:
      the ring, what it will still say, what it was sent and what was read from it. */
  ghost predicate Here(es: seq<Event>, c: Client, ring: Ring, left: seq<Packet>, sent: seq<byte>, got: seq<Packet>) {
    && Legal(Fresh(), es) && ring.Valid() && c.fd == FD
    && var w := After(Fresh(), es);
       && w.clients == [c] && w.ring == ring && w.kernel.IsOpen(FD)
       && w.kernel.inbox[FD] == EncodeAll(left) && w.kernel.sent[FD] == sent
       && PacketsOf(es, FD) == got
  }

  lemma PacketsSnoc(es: seq<Event>, e: Event)
    ensures PacketsOf(es + [e], FD) == PacketsOf(es, FD) + (if Serves(e, FD) && e.got.Msg? then [e.got.pkt] else [])
  {
    assert (es + [e])[..|es|] == es;
  }

  lemma PacketServed(es: seq<Event>, c: Client, ring: Ring, left: seq<Packet>, sent: seq<byte>,
                     got: seq<Packet>, n: nat)
    requires Here(es, c, ring, left, sent, got) && left != [] && n <= Room(ring, left[0])
    requires !Drops(Serve(FD, 0, Msg(left[0]), n))
    ensures
      var e := Serve(FD, 0, Msg(left[0]), n);
      Here(es + [e], ServedRec(ring, c, e), ring, left[1..], sent + ServedBytes(ring, e), got + [left[0]])
  {
    var w := After(Fresh(), es);
    var e := Serve(FD, 0, Msg(left[0]), n);
    FirstFrame(left[0], EncodeAll(left[1..]));
    assert Encode(left[0]) <= w.kernel.inbox[FD];
    LegalSnoc(Fresh(), es, e);
    PacketsSnoc(es, e);
    TurnOnClients(w, e);
    OwnTurnBytes(w, e);
    OwnTurnReads(w, e);
    StillOpen(w, e);
  }

  lemma StillOpen(w: World, e: Event)
    requires Enabled(w, e) && e.Serve? && !Drops(e)
    ensures Apply(w, e).kernel.IsOpen(e.fd)
  {
    if e.got.Msg? {
      match FromU8(e.got.pkt.msgType) { case _ => }
    }
  }

  lemma DrainLeaves(w: World, c: Client, n: nat)
    requires w.clients == [c] && w.ring.Valid() && w.kernel.IsOpen(c.fd)
    requires 0 < c.replayRemaining <= SCROLLBACK_SIZE && c.replayHead < SCROLLBACK_SIZE && n <= c.replayRemaining
    ensures
      var e := Drain(c.fd, 0, n);
      && Enabled(w, e)
      && Apply(w, e).clients == [DrainAnswer(c, n)]
      && Apply(w, e).ring == w.ring && Apply(w, e).kernel == w.kernel.Sent(c.fd, Slice(w.ring.buf, c.replayHead, n))
  {
  }

  lemma ReplayDrained(es: seq<Event>, c: Client, ring: Ring, left: seq<Packet>, sent: seq<byte>,
                      got: seq<Packet>, n: nat)
    requires Here(es, c, ring, left, sent, got)
    requires 0 < c.replayRemaining <= SCROLLBACK_SIZE && c.replayHead < SCROLLBACK_SIZE && n <= c.replayRemaining
    ensures Here(es + [Drain(FD, 0, n)], DrainAnswer(c, n), ring, left, sent + Slice(ring.buf, c.replayHead, n), got)
  {
    DrainLeaves(After(Fresh(), es), c, n);
    LegalSnoc(Fresh(), es, Drain(FD, 0, n));
    PacketsSnoc(es, Drain(FD, 0, n));
    assert got + [] == got;
  }

  lemma ChunkLeaves(w: World, c: Client, x: byte)
    requires w.clients == [c] && c.attached && w.ring.Valid() && w.kernel.IsOpen(c.fd)
    ensures
      var e := Output([x], {c.fd}, {});
      && Enabled(w, e)
      && Apply(w, e).clients == [c] && Apply(w, e).ring == Appended(w.ring, [x]) && Apply(w, e).kernel.IsOpen(c.fd)
      && Apply(w, e).kernel.inbox[c.fd] == w.kernel.inbox[c.fd]
      && Apply(w, e).kernel.sent[c.fd] == w.kernel.sent[c.fd] + [x]
  {
    assert w.clients[0] == c && c.fd in AttachedFds(w.clients);
    NobodyLost(w.clients);
  }

  lemma ChunkHeard(es: seq<Event>, c: Client, ring: Ring, left: seq<Packet>, sent: seq<byte>, got: seq<Packet>, x: byte)
    requires Here(es, c, ring, left, sent, got) && c.attached
    ensures Here(es + [Output([x], {FD}, {})], c, Appended(ring, [x]), left, sent + [x], got)
  {
    ChunkLeaves(After(Fresh(), es), c, x);
    LegalSnoc(Fresh(), es, Output([x], {FD}, {}));
    PacketsSnoc(es, Output([x], {FD}, {}));
    assert got + [] == got;
  }

  // ---- what each of the client's packets does -------------------------------

  lemma AttachGoes(es: seq<Event>, c: Client, ring: Ring, left: seq<Packet>, sent: seq<byte>, got: seq<Packet>, n: nat)
    requires Here(es, c, ring, left, sent, got) && left != [] && left[0] == ATTACH
    requires ring.head == 0 && ring.len == 2 && n < 2
    ensures Here(es + [Serve(FD, 0, Msg(ATTACH), n)], Client(FD, c.attached, n, 2 - n, c.peerPid), ring, left[1..],
                 sent + Slice(ring.buf, 0, n), got + [ATTACH])
  {
    var e := Serve(FD, 0, Msg(ATTACH), n);
    assert ServedRec(ring, c, e) == Client(FD, c.attached, n, 2 - n, c.peerPid);
    assert ServedBytes(ring, e) == Slice(ring.buf, 0, n);
    PacketServed(es, c, ring, left, sent, got, n);
  }

  lemma RedrawGoes(es: seq<Event>, c: Client, ring: Ring, left: seq<Packet>, sent: seq<byte>, got: seq<Packet>)
    requires Here(es, c, ring, left, sent, got) && left != [] && left[0] == REDRAW
    ensures Here(es + [Serve(FD, 0, Msg(REDRAW), 0)], c, ring, left[1..], sent, got + [REDRAW])
  {
    PacketServed(es, c, ring, left, sent, got, 0);
    assert sent + [] == sent;
  }

  lemma DetachGoes(es: seq<Event>, c: Client, ring: Ring, left: seq<Packet>, sent: seq<byte>, got: seq<Packet>)
    requires Here(es, c, ring, left, sent, got) && left != [] && left[0] == DETACH
    ensures Here(es + [Serve(FD, 0, Msg(DETACH), 0)], c.(attached := false), ring, left[1..], sent, got + [DETACH])
  {
    PacketServed(es, c, ring, left, sent, got, 0);
    assert sent + [] == sent;
  }

  // ---- the run --------------------------------------------------------------

  /** Two bytes of output. */
  lemma TwoBytes()
    ensures
      var w1 := Apply(Fresh(), Output([1, 2], {}, {}));
      && Enabled(Fresh(), Output([1, 2], {}, {}))
      && w1.clients == [] && w1.kernel.sent == map[] && w1.kernel.inbox == map[]
      && w1.ring.Valid() && w1.ring.head == 0 && w1.ring.len == 2 && Slice(w1.ring.buf, 0, 2) == [1, 2]
  {
    var r := Fresh().ring;
    AppendKeepsLast(r, [1, 2]);
    assert r.Contents() + [1, 2] == [1, 2];
  }

  /** Then the client connects. */
  lemma Connects() returns (es: seq<Event>, ring: Ring)
    ensures Here(es, NewClient(FD, 0), ring, TALK, [], [])
    ensures ring.head == 0 && ring.len == 2 && Slice(ring.buf, 0, 2) == [1, 2]
  {
    var e1, e2 := Output([1, 2], {}, {}), Join(FD, 0, EncodeAll(TALK));
    TwoBytes();
    LegalSnoc(Fresh(), [], e1);
    assert [] + [e1] == [e1];
    PacketsSnoc([], e1);
    LegalSnoc(Fresh(), [e1], e2);
    PacketsSnoc([e1], e2);
    es, ring := [e1] + [e2], Apply(Fresh(), e1).ring;
  }

  /** Attach, with one byte of the replay sent ... */
  lemma AttachesAtFirst(es0: seq<Event>, ring: Ring) returns (es: seq<Event>)
    requires Here(es0, NewClient(FD, 0), ring, TALK, [], [])
    requires ring.head == 0 && ring.len == 2 && Slice(ring.buf, 0, 2) == [1, 2]
    ensures Here(es, Client(FD, false, 1, 1, 0), ring, [REDRAW, DETACH, ATTACH, REDRAW], [1], [ATTACH])
  {
    SliceDrop(ring.buf, 0, 2, 1);
    AttachGoes(es0, NewClient(FD, 0), ring, TALK, [], [], 1);
    es := es0 + [Serve(FD, 0, Msg(ATTACH), 1)];
    assert TALK[1..] == [REDRAW, DETACH, ATTACH, REDRAW];
    assert [] + Slice(ring.buf, 0, 1) == [1] && [] + [ATTACH] == [ATTACH];
  }

  /** ... and Redraw. */
  lemma RedrawsAtFirst(es0: seq<Event>, ring: Ring) returns (es: seq<Event>)
    requires Here(es0, Client(FD, false, 1, 1, 0), ring, [REDRAW, DETACH, ATTACH, REDRAW], [1], [ATTACH])
    ensures Here(es, Client(FD, false, 1, 1, 0), ring, [DETACH, ATTACH, REDRAW], [1], [ATTACH, REDRAW])
  {
    RedrawGoes(es0, Client(FD, false, 1, 1, 0), ring, [REDRAW, DETACH, ATTACH, REDRAW], [1], [ATTACH]);
    es := es0 + [Serve(FD, 0, Msg(REDRAW), 0)];
    assert [REDRAW, DETACH, ATTACH, REDRAW][1..] == [DETACH, ATTACH, REDRAW];
    assert [ATTACH] + [REDRAW] == [ATTACH, REDRAW];
  }

  /** Detach, and the rest of the replay: the client is attached. */
  lemma SuspendedButAttached(es0: seq<Event>, ring: Ring) returns (es: seq<Event>)
    requires Here(es0, Client(FD, false, 1, 1, 0), ring, [DETACH, ATTACH, REDRAW], [1], [ATTACH, REDRAW])
    requires ring.head == 0 && ring.len == 2 && Slice(ring.buf, 0, 2) == [1, 2]
    ensures Here(es, Client(FD, true, 2, 0, 0), ring, [ATTACH, REDRAW], [1, 2], [ATTACH, REDRAW, DETACH])
  {
    SliceDrop(ring.buf, 0, 2, 1);
    DetachGoes(es0, Client(FD, false, 1, 1, 0), ring, [DETACH, ATTACH, REDRAW], [1], [ATTACH, REDRAW]);
    es := es0 + [Serve(FD, 0, Msg(DETACH), 0)];
    assert [DETACH, ATTACH, REDRAW][1..] == [ATTACH, REDRAW];
    assert [ATTACH, REDRAW] + [DETACH] == [ATTACH, REDRAW, DETACH];
    ReplayDrained(es, Client(FD, false, 1, 1, 0), ring, [ATTACH, REDRAW], [1], [ATTACH, REDRAW, DETACH], 1);
    es := es + [Drain(FD, 0, 1)];
    assert [1] + Slice(ring.buf, 1, 1) == [1, 2];
  }

  /** Resumed, with nothing of the new replay sent yet. */
  lemma Resumed(es0: seq<Event>, ring: Ring) returns (es: seq<Event>)
    requires Here(es0, Client(FD, true, 2, 0, 0), ring, [ATTACH, REDRAW], [1, 2], [ATTACH, REDRAW, DETACH])
    requires ring.head == 0 && ring.len == 2
    ensures es0 <= es && Here(es, Client(FD, true, 0, 2, 0), ring, [], [1, 2], TALK)
  {
    AttachGoes(es0, Client(FD, true, 2, 0, 0), ring, [ATTACH, REDRAW], [1, 2], [ATTACH, REDRAW, DETACH], 0);
    es := es0 + [Serve(FD, 0, Msg(ATTACH), 0)];
    assert [ATTACH, REDRAW][1..] == [REDRAW] && [1, 2] + Slice(ring.buf, 0, 0) == [1, 2];
    assert [ATTACH, REDRAW, DETACH] + [ATTACH] == [ATTACH, REDRAW, DETACH, ATTACH];
    RedrawGoes(es, Client(FD, true, 0, 2, 0), ring, [REDRAW], [1, 2], [ATTACH, REDRAW, DETACH, ATTACH]);
    es := es + [Serve(FD, 0, Msg(REDRAW), 0)];
    assert [REDRAW][1..] == [] && [ATTACH, REDRAW, DETACH, ATTACH] + [REDRAW] == TALK;
  }

  /** A byte of live output, and the replay after it. */
  lemma Mixed(es0: seq<Event>, ring: Ring) returns (es: seq<Event>)
    requires Here(es0, Client(FD, true, 0, 2, 0), ring, [], [1, 2], TALK)
    requires ring.head == 0 && ring.len == 2 && Slice(ring.buf, 0, 2) == [1, 2]
    ensures es0 <= es && Here(es, Client(FD, true, 2, 0, 0), Appended(ring, [3]), [], [1, 2, 3, 1, 2], TALK)
  {
    var c := Client(FD, true, 0, 2, 0);
    ChunkHeard(es0, c, ring, [], [1, 2], TALK, 3);
    es := es0 + [Output([3], {FD}, {})];
    assert [1, 2] + [3] == [1, 2, 3];
    ReplayDrained(es, c, Appended(ring, [3]), [], [1, 2, 3], TALK, 2);
    es := es + [Drain(FD, 0, 2)];
    assert ring.Behind(2) == 0;
    WindowSurvives(ring, [3], 2, 2);
    assert [1, 2, 3] + [1, 2] == [1, 2, 3, 1, 2];
  }

  lemma AttachedAgainstLastWord(es: seq<Event>, ring: Ring)
    requires Here(es, Client(FD, true, 2, 0, 0), ring, [ATTACH, REDRAW], [1, 2], [ATTACH, REDRAW, DETACH])
    ensures Listed(After(Fresh(), es), FD) && Rec(After(Fresh(), es), FD).attached && !LastWordIsAttach(es, FD)
  {
    var v := After(Fresh(), es);
    assert v.clients[0] == Client(FD, true, 2, 0, 0);
    RecIsUnique(v, FD, v.clients[0]);
    TurnsOfPackets(es, FD);
    assert !LastControl([ATTACH, REDRAW, DETACH]);
  }

  /** The run up to the moment the suspended client is attached. */
  ghost predicate Halfway(es: seq<Event>) {
    && Legal(Fresh(), es) && Listed(After(Fresh(), es), FD)
    && Rec(After(Fresh(), es), FD).attached && !LastWordIsAttach(es, FD)
  }

  lemma WholeRun() returns (es: seq<Event>, half: seq<Event>, ring: Ring)
    ensures half <= es && Halfway(half)
    ensures Here(es, Client(FD, true, 2, 0, 0), ring, [], [1, 2, 3, 1, 2], TALK)
  {
    var es0;
    es0, ring := Connects();
    var es1 := AttachesAtFirst(es0, ring);
    es1 := RedrawsAtFirst(es1, ring);
    half := SuspendedButAttached(es1, ring);
    AttachedAgainstLastWord(half, ring);
    var es2 := Resumed(half, ring);
    es := Mixed(es2, ring);
    ring := Appended(ring, [3]);
  }

  /** A run of a fresh daemon with the shipped client, which attaches, is suspended in
      mid-replay and resumed.  At some moment it is attached although its last word
      was a Detach; in the end it has been sent old output after newer live output. */
  lemma SuspendInMidReplayMixes() returns (es: seq<Event>, half: seq<Event>)
    ensures Inv(Fresh()) && Legal(Fresh(), es) && TakesTurns(es, FD)
    ensures PacketsOf(es, FD) ==
      Conversation(Opening(false, NO_REDRAW, ZEROS), [Suspend([SUSPEND_KEY], NO_REDRAW, ZEROS)])
    ensures half <= es && Halfway(half)
    ensures SentTo(After(Fresh(), es), FD) == [1, 2] + [3] + [1, 2]
  {
    FreshIsSound();
    TalkIsConversation();
    var ring;
    es, half, ring := WholeRun();
    TurnsOfPackets(es, FD);
  }
}
