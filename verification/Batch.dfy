/** One packet batch: the index walk of handle_client_packets under
    swap-removal, and what a whole batch does to each client. */
module Batch {
  import opened Bytes
  import opened KernelModel
  import opened ScrollbackRing
  import opened Protocol
  import opened DaemonModel
  import opened DaemonSafety

  ghost predicate ServesOnly(es: seq<Event>) {
    forall e <- es :: e.Serve?
  }

  /** Whose turns a batch consisted of, in order. */
  function ServedFds(es: seq<Event>): seq<Fd> {
    if es == [] then []
    else ServedFds(es[..|es| - 1]) + (if es[|es| - 1].Serve? then [es[|es| - 1].fd] else [])
  }

  ghost predicate NoDup(s: seq<Fd>) {
    forall i, j :: 0 <= i < j < |s| ==> s[i] != s[j]
  }

  // ---- one turn is local ---------------------------------------------------

  predicate Carries(e: Event, t: MsgType) {
    e.Serve? && e.got.Msg? && FromU8(e.got.pkt.msgType) == Some(t)
  }

  /** The turns that end a connection. */
  predicate Drops(e: Event) {
    e.Serve? && (e.got.Gone? || Carries(e, ForceDetach) || Carries(e, Info))
  }

  /** ... by the codes on the wire: 6 is ForceDetach and 7 is Info. */
  lemma DropsByCode(e: Event)
    requires e.Serve?
    ensures Drops(e) <==> e.got.Gone? || (e.got.Msg? && (e.got.pkt.msgType == 6 || e.got.pkt.msgType == 7))
  {
  }

  /** The record of the client that just had a turn and was kept. */
  function ServedRec(ring: Ring, c: Client, e: Event): (c': Client)
    requires e.Serve? && ring.head < SCROLLBACK_SIZE && ring.len <= SCROLLBACK_SIZE
    requires e.got.Msg? ==> e.n <= Room(ring, e.got.pkt)
    ensures c'.fd == c.fd && c'.peerPid == c.peerPid
  {
    if Carries(e, Attach) then AttachAnswer(c, ring, e.got.pkt, e.n)
    else if Carries(e, Detach) then c.(attached := false)
    else c
  }

  /** What a turn sends to its own client. */
  ghost function ServedBytes(ring: Ring, e: Event): seq<byte>
    requires e.Serve? && ring.Valid()
    requires e.got.Msg? ==> e.n <= Room(ring, e.got.pkt)
  {
    if Carries(e, Attach) && WantsReplay(ring, e.got.pkt) then Slice(ring.buf, ring.head, e.n) else []
  }

  /** A turn either drops its client, the last one moving into its place, or
      rewrites its record where it stands. */
  lemma TurnOnClients(w: World, e: Event)
    requires Enabled(w, e) && e.Serve?
    ensures Apply(w, e).clients ==
      if Drops(e) then SwapRemoved(w.clients, e.at) else w.clients[e.at := ServedRec(w.ring, w.clients[e.at], e)]
    ensures Apply(w, e).ring == w.ring && Apply(w, e).kernel.shown == w.kernel.shown && Apply(w, e).log == w.log
  {
    match e.got
    case Msg(pkt) => match FromU8(pkt.msgType) { case _ => }
    case _ =>
  }

  /** The open connection `f` of `k` is untouched in `k'`. */
  ghost predicate SameConnection(k: Kernel, k': Kernel, f: Fd) {
    k.IsOpen(f) ==> k'.IsOpen(f) && k'.sent[f] == k.sent[f] && k'.inbox[f] == k.inbox[f]
  }

  lemma AnswerUsesOneConnection(w: World, i: nat, pkt: Packet, n: nat, f: Fd)
    requires i < |w.clients| && w.ring.Valid() && w.kernel.IsOpen(w.clients[i].fd) && n <= Room(w.ring, pkt)
    requires f != w.clients[i].fd
    ensures SameConnection(w.kernel, Answer(w, i, pkt, n).kernel, f)
  {
    match FromU8(pkt.msgType)
    case _ =>
  }

  lemma TurnUsesOneConnection(w: World, e: Event, f: Fd)
    requires Enabled(w, e) && e.Serve? && f != e.fd
    ensures SameConnection(w.kernel, Apply(w, e).kernel, f)
  {
    match e.got
    case Msg(pkt) => AnswerUsesOneConnection(w.(kernel := w.kernel.Consumed(e.fd, PACKET_SIZE)), e.at, pkt, e.n, f);
    case _ =>
  }

  /** A packet from one client changes no other client: not its attached flag,
      not its replay cursor, not what it was sent or has still to be read. */
  lemma PacketTouchesOnlySender(w: World, e: Event)
    requires Inv(w) && Enabled(w, e) && e.Serve?
    ensures forall c: Client | c.fd != e.fd :: c in Apply(w, e).clients <==> c in w.clients
    ensures forall f: Fd | f != e.fd :: SameConnection(w.kernel, Apply(w, e).kernel, f)
  {
    TurnOnClients(w, e);
    SwapRemovedIsRemoval(w.clients, e.at);
    UpdateIsLocal(w.clients, e.at, ServedRec(w.ring, w.clients[e.at], e));
    forall f: Fd | f != e.fd ensures SameConnection(w.kernel, Apply(w, e).kernel, f) {
      TurnUsesOneConnection(w, e, f);
    }
  }

  // ---- what a turn reads ---------------------------------------------------

  function Inbox(k: Kernel, f: Fd): seq<byte> {
    if f in k.inbox then k.inbox[f] else []
  }

  /** A turn read what was there in `k`: a whole packet, and the first; it found the
      connection gone only for want of one, or, if the calls were not `sound`, for a
      failure; it left off in the middle only if they were not `calm`.  With neither
      excuse the replay an Attach asked for went out whole. */
  ghost predicate TurnComplete(k: Kernel, ring: Ring, e: Event, calm: bool, sound: bool) {
    && e.Serve?
    && (e.got.Msg? ==> |Inbox(k, e.fd)| >= PACKET_SIZE && Encode(e.got.pkt) == Inbox(k, e.fd)[..PACKET_SIZE])
    && (e.got.Gone? ==> |Inbox(k, e.fd)| < PACKET_SIZE || !sound)
    && (e.got.Partial? ==> !calm)
    && (Carries(e, Attach) && calm && sound ==> e.n == Room(ring, e.got.pkt))
  }

  ghost predicate AllComplete(k: Kernel, ring: Ring, es: seq<Event>, calm: bool, sound: bool) {
    forall e <- es :: TurnComplete(k, ring, e, calm, sound)
  }

  lemma CompleteStays(k: Kernel, ring: Ring, es: seq<Event>, calm0: bool, sound0: bool, calm: bool, sound: bool)
    requires AllComplete(k, ring, es, calm0, sound0) && (calm ==> calm0) && (sound ==> sound0)
    ensures AllComplete(k, ring, es, calm, sound)
  {
  }

  /** With no transient and no failure a turn reads the packet that is there, and
      finds the connection gone exactly if none is. */
  lemma SmoothTurnReadsPacket(k: Kernel, ring: Ring, e: Event)
    requires TurnComplete(k, ring, e, true, true)
    ensures if |Inbox(k, e.fd)| >= PACKET_SIZE then e.got == Msg(Decode(Inbox(k, e.fd)[..PACKET_SIZE])) else e.got.Gone?
  {
    if e.got.Msg? {
      EncodeIsInjective(e.got.pkt, Decode(Inbox(k, e.fd)[..PACKET_SIZE]));
    }
  }

  /** What went well counts for less when more went wrong later. */
  lemma OneMoreComplete(k: Kernel, ring: Ring, es: seq<Event>, calm0: bool, sound0: bool, e: Event,
                        calm1: bool, sound1: bool, calm: bool, sound: bool)
    requires AllComplete(k, ring, es, calm0, sound0) && TurnComplete(k, ring, e, calm1, sound1)
    requires (calm ==> calm0 && calm1) && (sound ==> sound0 && sound1)
    ensures AllComplete(k, ring, es + [e], calm, sound)
  {
  }

  /** What a step asks to be typed as pushed input. */
  function OfferOf(e: Event): seq<PtyInput> {
    if Carries(e, Push) then Offer(e.fd, e.got.pkt) else []
  }

  function OffersOf(es: seq<Event>): seq<PtyInput> {
    if es == [] then [] else OffersOf(es[..|es| - 1]) + OfferOf(es[|es| - 1])
  }

  /** How often a step asks for a Ctrl-L. */
  function RedrawsOf(e: Event): nat {
    if Carries(e, Redraw) && e.got.pkt.len == REDRAW_CTRL_L then 1 else 0
  }

  function RedrawsIn(es: seq<Event>): nat {
    if es == [] then 0 else RedrawsIn(es[..|es| - 1]) + RedrawsOf(es[|es| - 1])
  }

  lemma OffersSnoc(pushes: seq<PtyInput>, es: seq<Event>, e: Event)
    ensures pushes + OffersOf(es + [e]) == pushes + OffersOf(es) + OfferOf(e)
    ensures RedrawsIn(es + [e]) == RedrawsIn(es) + RedrawsOf(e)
  {
    assert (es + [e])[..|es|] == es;
    Regroup(pushes, OffersOf(es), OfferOf(e));
  }

  /** The connections not served yet have everything still to be read. */
  ghost predicate UnreadSince(k0: Kernel, served: seq<Fd>, k: Kernel) {
    forall f :: f in k.inbox && f !in served ==> f in k0.inbox && k.inbox[f] == k0.inbox[f]
  }

  /** A turn's reasons, read as what must have been there. */
  lemma TurnReads(k0: Kernel, served: seq<Fd>, w: World, e: Event)
    requires Inv(w) && Enabled(w, e) && e.Serve? && e.fd !in served && UnreadSince(k0, served, w.kernel)
    ensures Inbox(w.kernel, e.fd) == Inbox(k0, e.fd)
    ensures e.got.Msg? ==> |Inbox(k0, e.fd)| >= PACKET_SIZE && Encode(e.got.pkt) == Inbox(k0, e.fd)[..PACKET_SIZE]
  {
    assert e.fd in w.kernel.inbox;
  }

  lemma TurnLeavesOthersUnread(k0: Kernel, served: seq<Fd>, w: World, e: Event)
    requires Inv(w) && Enabled(w, e) && e.Serve? && UnreadSince(k0, served, w.kernel)
    ensures UnreadSince(k0, served + [e.fd], Apply(w, e).kernel)
  {
    var k' := Apply(w, e).kernel;
    StepKeeps(w, e);
    OnlyJoinOpens(w, e);
    forall f | f in k'.inbox && f !in served + [e.fd] ensures f in k0.inbox && k'.inbox[f] == k0.inbox[f] {
      assert f in w.kernel.sent && f in w.kernel.inbox;
      TurnUsesOneConnection(w, e, f);
    }
  }

  // ---- the walk ------------------------------------------------------------

  /** Half way through the walk: `cs[i..]` are starters still waiting their turn,
      nobody had two turns, and every readable starter had one or is waiting. */
  ghost predicate Walking(start: seq<Client>, ready: set<Fd>, served: seq<Fd>, cs: seq<Client>, i: nat) {
    && i <= |cs|
    && NoDup(served)
    && (forall j :: i <= j < |cs| ==> cs[j] in start && cs[j].fd !in served)
    && (forall f <- served :: f in ready && f in Fds(start))
    && (forall c <- start :: c.fd in ready ==> c.fd in served || c in cs[i..])
  }

  lemma WalkSkips(start: seq<Client>, ready: set<Fd>, served: seq<Fd>, cs: seq<Client>, i: nat)
    requires Walking(start, ready, served, cs, i) && i < |cs| && cs[i].fd !in ready
    ensures Walking(start, ready, served, cs, i + 1)
  {
    assert cs[i..] == [cs[i]] + cs[i + 1..];
  }

  lemma WalkKeeps(start: seq<Client>, ready: set<Fd>, served: seq<Fd>, cs: seq<Client>, i: nat, cs': seq<Client>)
    requires Walking(start, ready, served, cs, i) && i < |cs| && cs[i].fd in ready && DistinctFds(cs)
    requires |cs'| == |cs| && forall j :: 0 <= j < |cs| && j != i ==> cs'[j] == cs[j]
    ensures Walking(start, ready, served + [cs[i].fd], cs', i + 1)
  {
    assert cs[i..] == [cs[i]] + cs[i + 1..];
    assert cs'[i + 1..] == cs[i + 1..];
  }

  lemma WalkDrops(start: seq<Client>, ready: set<Fd>, served: seq<Fd>, cs: seq<Client>, i: nat)
    requires Walking(start, ready, served, cs, i) && i < |cs| && cs[i].fd in ready && DistinctFds(cs)
    ensures Walking(start, ready, served + [cs[i].fd], SwapRemoved(cs, i), i)
  {
    var cs' := SwapRemoved(cs, i);
    forall c <- start | c.fd in ready ensures c.fd in served + [cs[i].fd] || c in cs'[i..] {
      if c.fd !in served && c != cs[i] {
        var j :| i < j < |cs| && cs[j] == c;
        assert if j == |cs| - 1 then cs'[i..][0] == c else cs'[i..][j - i] == c;
      }
    }
  }

  /** One turn of the walk: the index stays exactly when its client is dropped. */
  lemma WalkTurn(start: seq<Client>, ready: set<Fd>, es: seq<Event>, w: World, e: Event)
    requires DistinctFds(w.clients) && Enabled(w, e) && e.Serve? && e.fd in ready
    requires Walking(start, ready, ServedFds(es), w.clients, e.at)
    ensures Walking(start, ready, ServedFds(es + [e]), Apply(w, e).clients, if Drops(e) then e.at else e.at + 1)
    ensures |Apply(w, e).clients| == if Drops(e) then |w.clients| - 1 else |w.clients|
  {
    TurnOnClients(w, e);
    assert (es + [e])[..|es|] == es;
    if Drops(e) {
      WalkDrops(start, ready, ServedFds(es), w.clients, e.at);
    } else {
      WalkKeeps(start, ready, ServedFds(es), w.clients, e.at, Apply(w, e).clients);
    }
  }

  /** The same, for the run so far. */
  lemma WalkGoesOn(start: seq<Client>, ready: set<Fd>, w: World, es: seq<Event>, e: Event)
    requires Legal(w, es) && Inv(After(w, es)) && ServesOnly(es)
    requires Enabled(After(w, es), e) && e.Serve? && e.fd in ready
    requires Walking(start, ready, ServedFds(es), After(w, es).clients, e.at)
    ensures
      var v, v' := After(w, es), Apply(After(w, es), e);
      && Legal(w, es + [e]) && After(w, es + [e]) == v' && Inv(v') && ServesOnly(es + [e])
      && Walking(start, ready, ServedFds(es + [e]), v'.clients, if Drops(e) then e.at else e.at + 1)
      && |v'.clients| == (if Drops(e) then |v.clients| - 1 else |v.clients|)
      && v'.kernel.sent.Keys <= v.kernel.sent.Keys
  {
    WalkTurn(start, ready, es, After(w, es), e);
    RunGrows(w, es, e);
  }

  /** The turn had its reasons: it gave up reading only for a transient, and dropped
      the client only for want of a packet or for a failure. */
  predicate Reasoned(unread: nat, e: Event, ring: Ring, calm: bool, sound: bool) {
    && e.Serve?
    && (e.got.Gone? ==> unread < PACKET_SIZE || !sound)
    && (e.got.Partial? ==> !calm && sound)
    && (Carries(e, Attach) && calm && sound ==> e.n == Room(ring, e.got.pkt))
  }

  /** Half way through a batch that began in `w`: the steps so far, and the walk at `i`. */
  ghost predicate HalfWay(start: seq<Client>, ready: set<Fd>, w: World, es: seq<Event>, i: nat,
                          calm: bool, sound: bool) {
    && Legal(w, es) && ServesOnly(es)
    && Walking(start, ready, ServedFds(es), After(w, es).clients, i)
    && UnreadSince(w.kernel, ServedFds(es), After(w, es).kernel)
    && After(w, es).kernel.sent.Keys <= w.kernel.sent.Keys && After(w, es).ring == w.ring
    && AllComplete(w.kernel, w.ring, es, calm, sound)
  }

  lemma BatchStarts(w: World, ready: set<Fd>)
    requires Inv(w)
    ensures HalfWay(w.clients, ready, w, [], 0, true, true)
  {
  }

  lemma BatchSkips(start: seq<Client>, ready: set<Fd>, w: World, es: seq<Event>, i: nat, calm: bool, sound: bool)
    requires HalfWay(start, ready, w, es, i, calm, sound)
    requires i < |After(w, es).clients| && After(w, es).clients[i].fd !in ready
    ensures HalfWay(start, ready, w, es, i + 1, calm, sound)
  {
    WalkSkips(start, ready, ServedFds(es), After(w, es).clients, i);
  }

  /** One turn moves the walk on, and did what there was to do. */
  lemma BatchGoesOn(start: seq<Client>, ready: set<Fd>, w: World, es: seq<Event>, calm0: bool, sound0: bool,
                    e: Event, calm1: bool, sound1: bool, i: nat, calm: bool, sound: bool)
    requires Inv(w) && e.Serve? && HalfWay(start, ready, w, es, e.at, calm0, sound0)
    requires i == if Drops(e) then e.at else e.at + 1
    requires Enabled(After(w, es), e) && e.fd in ready
    requires Reasoned(|Inbox(After(w, es).kernel, e.fd)|, e, After(w, es).ring, calm1, sound1)
    requires (calm ==> calm0 && calm1) && (sound ==> sound0 && sound1)
    ensures Legal(w, es + [e]) && After(w, es + [e]) == Apply(After(w, es), e)
    ensures HalfWay(start, ready, w, es + [e], i, calm, sound)
    ensures |After(w, es + [e]).clients| == |After(w, es).clients| - (if Drops(e) then 1 else 0)
  {
    var v := After(w, es);
    RunKeeps(w, es);
    WalkGoesOn(start, ready, w, es, e);
    TurnOnClients(v, e);
    TurnReads(w.kernel, ServedFds(es), v, e);
    TurnLeavesOthersUnread(w.kernel, ServedFds(es), v, e);
    OneMoreComplete(w.kernel, w.ring, es, calm0, sound0, e, calm1, sound1, calm, sound);
    assert (es + [e])[..|es|] == es;
  }

  /** At the end exactly the readable starters have been served, each once. */
  lemma BatchEnds(w: World, ready: set<Fd>, es: seq<Event>, calm: bool, sound: bool)
    requires Inv(w) && Legal(w, es) && HalfWay(w.clients, ready, w, es, |After(w, es).clients|, calm, sound)
    ensures Inv(After(w, es)) && NoDup(ServedFds(es)) && AllComplete(w.kernel, w.ring, es, calm, sound)
    ensures forall f :: f in ServedFds(es) <==> f in ready && f in Fds(w.clients)
  {
    RunKeeps(w, es);
    WalkEnds(w.clients, ready, ServedFds(es), After(w, es).clients);
  }

  /** A finished walk served exactly the readable starters, each exactly once. */
  lemma WalkEnds(start: seq<Client>, ready: set<Fd>, served: seq<Fd>, cs: seq<Client>)
    requires Walking(start, ready, served, cs, |cs|)
    ensures NoDup(served) && forall f :: f in served <==> f in ready && f in Fds(start)
  {
    forall f | f in ready && f in Fds(start) ensures f in served {
      var c :| c in start && c.fd == f;
      assert cs[|cs|..] == [];
    }
  }

  // ---- the outcome of a batch ----------------------------------------------

  /** The turn a batch gave to descriptor `f`, if any. */
  function TurnOf(es: seq<Event>, f: Fd): Option<Event> {
    if es == [] then None
    else if es[|es| - 1].Serve? && es[|es| - 1].fd == f then Some(es[|es| - 1])
    else TurnOf(es[..|es| - 1], f)
  }

  predicate TurnFits(ring: Ring, e: Event) {
    && e.Serve? && ring.head < SCROLLBACK_SIZE && ring.len <= SCROLLBACK_SIZE
    && (e.got.Msg? ==> e.n <= Room(ring, e.got.pkt))
  }

  /** What becomes of a client with that turn: nothing is left, or its new record. */
  function Outcome(ring: Ring, c: Client, turn: Option<Event>): Option<Client> {
    match turn
    case None => Some(c)
    case Some(e) =>
      if !TurnFits(ring, e) || Drops(e) then None else Some(ServedRec(ring, c, e))
  }

  lemma {:induction false} UnservedHasNoTurn(es: seq<Event>, f: Fd)
    requires ServesOnly(es)
    ensures f in ServedFds(es) <==> TurnOf(es, f).Some?
    ensures TurnOf(es, f).Some? ==> TurnOf(es, f).value in es && TurnOf(es, f).value.fd == f
  {
    if es == [] {
    } else {
      var before := es[..|es| - 1];
      assert es == before + [es[|es| - 1]];
      UnservedHasNoTurn(before, f);
    }
  }

  lemma NoDupPrefix(s: seq<Fd>, f: Fd)
    requires NoDup(s + [f])
    ensures NoDup(s) && f !in s
  {
    assert forall i :: 0 <= i < |s| ==> (s + [f])[i] == s[i];
    assert (s + [f])[|s|] == f;
  }

  /** Who is listed after one turn: the others as they were, the client with its
      new record unless it is gone. */
  lemma ListAfterTurn(w: World, e: Event, c': Client)
    requires Inv(w) && Enabled(w, e) && e.Serve?
    ensures TurnFits(w.ring, e)
    ensures c'.fd != e.fd ==> (c' in Apply(w, e).clients <==> c' in w.clients)
    ensures c'.fd == e.fd ==>
      (c' in Apply(w, e).clients <==> Outcome(w.ring, w.clients[e.at], Some(e)) == Some(c'))
  {
    TurnOnClients(w, e);
    if Drops(e) {
      SwapRemovedIsRemoval(w.clients, e.at);
    } else {
      assert TurnFits(w.ring, e);
      UpdateIsLocal(w.clients, e.at, ServedRec(w.ring, w.clients[e.at], e));
    }
  }

  /** `c'` is what its own turn among `es` made of a client of `w`. */
  ghost predicate Became(w: World, es: seq<Event>, c': Client) {
    exists c :: c in w.clients && Outcome(w.ring, c, TurnOf(es, c.fd)) == Some(c')
  }

  lemma TurnOfSnoc(before: seq<Event>, e: Event, f: Fd)
    ensures TurnOf(before + [e], f) == if e.Serve? && e.fd == f then Some(e) else TurnOf(before, f)
  {
    assert (before + [e])[..|before|] == before;
  }

  /** A turn makes no difference to the others. */
  lemma OthersBecameTheSame(w: World, before: seq<Event>, e: Event, c': Client)
    requires e.Serve? && c'.fd != e.fd
    ensures Became(w, before + [e], c') <==> Became(w, before, c')
  {
    if Became(w, before, c') {
      var c :| c in w.clients && Outcome(w.ring, c, TurnOf(before, c.fd)) == Some(c');
      TurnOfSnoc(before, e, c.fd);
    }
    if Became(w, before + [e], c') {
      var c :| c in w.clients && Outcome(w.ring, c, TurnOf(before + [e], c.fd)) == Some(c');
      TurnOfSnoc(before, e, c.fd);
    }
  }

  lemma ServedBecame(w: World, before: seq<Event>, e: Event, c0: Client, c': Client)
    requires e.Serve? && c'.fd == e.fd && c0.fd == e.fd && c0 in w.clients
    requires forall c :: c in w.clients && c.fd == e.fd ==> c == c0
    ensures Became(w, before + [e], c') <==> Outcome(w.ring, c0, Some(e)) == Some(c')
  {
    TurnOfSnoc(before, e, e.fd);
    if Became(w, before + [e], c') {
      var c :| c in w.clients && Outcome(w.ring, c, TurnOf(before + [e], c.fd)) == Some(c');
      assert c.fd == c'.fd;
    }
  }

  /** Batch exactness.  When nobody is served twice, a client is on the final list
      if and only if it is what its own turn made of a client on the first one,
      whatever the others sent and however swap_remove moved them about. */
  lemma {:induction false} BatchOutcome(w: World, es: seq<Event>, c': Client)
    requires Inv(w) && Legal(w, es) && ServesOnly(es) && NoDup(ServedFds(es))
    ensures After(w, es).ring == w.ring
    ensures c' in After(w, es).clients <==> Became(w, es, c')
  {
    if es == [] {
      assert c' in w.clients ==> Outcome(w.ring, c', TurnOf(es, c'.fd)) == Some(c');
    } else {
      var before, e := es[..|es| - 1], es[|es| - 1];
      assert es == before + [e];
      assert ServedFds(es) == ServedFds(before) + [e.fd];
      NoDupPrefix(ServedFds(before), e.fd);
      BatchOutcome(w, before, c');
      RunKeeps(w, before);
      var v := After(w, before);
      TurnOnClients(v, e);
      ListAfterTurn(v, e, c');
      UnservedHasNoTurn(before, e.fd);
      ServedForTheFirstTime(w, before, v, e);
      if c'.fd == e.fd {
        ServedBecame(w, before, e, v.clients[e.at], c');
      } else {
        OthersBecameTheSame(w, before, e, c');
      }
    }
  }

  /** A client served now for the first time still has the record it started with. */
  lemma ServedForTheFirstTime(w: World, before: seq<Event>, v: World, e: Event)
    requires Inv(w) && Legal(w, before) && v == After(w, before) && v.ring == w.ring
    requires Inv(v) && Enabled(v, e) && e.Serve? && TurnOf(before, e.fd).None?
    requires ServesOnly(before) && NoDup(ServedFds(before))
    ensures v.clients[e.at] in w.clients
    ensures forall c :: c in w.clients && c.fd == e.fd ==> c == v.clients[e.at]
  {
    BatchOutcome(w, before, v.clients[e.at]);
    UnservedBecameItself(w, before, v.clients[e.at]);
  }

  lemma UnservedBecameItself(w: World, es: seq<Event>, c': Client)
    requires DistinctFds(w.clients) && Became(w, es, c') && TurnOf(es, c'.fd).None?
    ensures c' in w.clients && forall c :: c in w.clients && c.fd == c'.fd ==> c == c'
  {
    var c :| c in w.clients && Outcome(w.ring, c, TurnOf(es, c.fd)) == Some(c');
    assert c.fd == c'.fd;
  }
}
