/** What one client sees of a run: the daemon's steps projected to a single
    descriptor. */
module ClientView {
  import opened Bytes
  import opened KernelModel
  import opened ScrollbackRing
  import opened Protocol
  import opened DaemonModel
  import opened DaemonSafety
  import opened Batch

  ghost predicate Listed(w: World, f: Fd) {
    f in Fds(w.clients)
  }

  /** The record of the client on descriptor `f`. */
  ghost function Rec(w: World, f: Fd): (c: Client)
    requires Listed(w, f)
    ensures c in w.clients && c.fd == f
  {
    var c :| c in w.clients && c.fd == f;
    c
  }

  /** Everything sent so far on the connection `f`. */
  function SentTo(w: World, f: Fd): seq<byte> {
    if f in w.kernel.sent then w.kernel.sent[f] else []
  }

  /** Everything still to be read on the connection `f`. */
  function Unread(w: World, f: Fd): seq<byte> {
    if f in w.kernel.inbox then w.kernel.inbox[f] else []
  }

  lemma RecIsUnique(w: World, f: Fd, c: Client)
    requires DistinctFds(w.clients) && c in w.clients && c.fd == f
    ensures Listed(w, f) && Rec(w, f) == c
  {
  }

  lemma AttachedIsRec(w: World, f: Fd)
    requires DistinctFds(w.clients) && f in AttachedFds(w.clients)
    ensures Listed(w, f) && Rec(w, f).attached
  {
    var c :| c in w.clients && c.attached && c.fd == f;
    RecIsUnique(w, f, c);
  }

  predicate Serves(e: Event, f: Fd) {
    e.Serve? && e.fd == f
  }

  predicate Drains(e: Event, f: Fd) {
    e.Drain? && e.fd == f
  }

  predicate Hears(e: Event, f: Fd) {
    e.Output? && f in e.wrote
  }

  /** The step is one this client may survive, and its numbers fit this record. */
  predicate Fits(ring: Ring, c: Client, e: Event) {
    && ring.head < SCROLLBACK_SIZE && ring.len <= SCROLLBACK_SIZE
    && (Serves(e, c.fd) && e.got.Msg? ==> e.n <= Room(ring, e.got.pkt))
    && (Drains(e, c.fd) ==> e.n <= c.replayRemaining <= SCROLLBACK_SIZE && c.replayHead < SCROLLBACK_SIZE)
  }

  /** A client's record after a step it survives. */
  function RecAfter(ring: Ring, c: Client, e: Event): Client
    requires Fits(ring, c, e)
  {
    if Serves(e, c.fd) then ServedRec(ring, c, e)
    else if Drains(e, c.fd) then DrainAnswer(c, e.n)
    else c
  }

  /** What a step sends to a client that survives it. */
  ghost function BytesTo(ring: Ring, c: Client, e: Event): seq<byte>
    requires Fits(ring, c, e) && ring.Valid()
  {
    if Serves(e, c.fd) then ServedBytes(ring, e)
    else if Drains(e, c.fd) then Slice(ring.buf, c.replayHead, e.n)
    else if Hears(e, c.fd) then e.data
    else []
  }

  /** The projection is exact: a client that is still there after a step has the
      record and the transcript that its own view of the step gives it. */
  ghost predicate Projects(w: World, e: Event, w': World, f: Fd)
    requires Listed(w, f) && Listed(w', f) && w.ring.Valid()
  {
    var c := Rec(w, f);
    && Fits(w.ring, c, e)
    && Rec(w', f) == RecAfter(w.ring, c, e)
    && SentTo(w', f) == SentTo(w, f) + BytesTo(w.ring, c, e)
  }

  /** A step about somebody else. */
  lemma BystanderProjects(w: World, e: Event, w': World, f: Fd)
    requires Listed(w, f) && w.ring.Valid() && DistinctFds(w'.clients)
    requires !Serves(e, f) && !Drains(e, f) && !Hears(e, f)
    requires Rec(w, f) in w'.clients && SentTo(w', f) == SentTo(w, f)
    ensures Listed(w', f) && Projects(w, e, w', f)
  {
    RecIsUnique(w', f, Rec(w, f));
    assert SentTo(w, f) + [] == SentTo(w, f);
  }

  /** Rewriting one entry of the list rewrites one client's record. */
  lemma RecOfUpdate(w: World, w': World, i: nat, c': Client)
    requires DistinctFds(w.clients) && i < |w.clients| && c'.fd == w.clients[i].fd && w'.clients == w.clients[i := c']
    ensures Listed(w, c'.fd) && Rec(w, c'.fd) == w.clients[i]
    ensures Listed(w', c'.fd) && Rec(w', c'.fd) == c'
  {
    UpdateIsLocal(w.clients, i, c');
    RecIsUnique(w, c'.fd, w.clients[i]);
    RecIsUnique(w', c'.fd, c');
  }

  lemma OtherTurnProjects(w: World, e: Event, f: Fd)
    requires Inv(w) && Enabled(w, e) && e.Serve? && e.fd != f && Listed(w, f)
    ensures Listed(Apply(w, e), f) && Projects(w, e, Apply(w, e), f)
  {
    StepKeeps(w, e);
    PacketTouchesOnlySender(w, e);
    assert SameConnection(w.kernel, Apply(w, e).kernel, f);
    BystanderProjects(w, e, Apply(w, e), f);
  }

  lemma OwnTurnBytes(w: World, e: Event)
    requires Enabled(w, e) && e.Serve? && !Drops(e)
    ensures SentTo(Apply(w, e), e.fd) == SentTo(w, e.fd) + ServedBytes(w.ring, e)
  {
    assert w.kernel.sent[e.fd] + [] == w.kernel.sent[e.fd];
    if e.got.Msg? {
      match FromU8(e.got.pkt.msgType) { case _ => }
    }
  }

  lemma OwnTurnRec(w: World, e: Event)
    requires Inv(w) && Enabled(w, e) && e.Serve? && Listed(Apply(w, e), e.fd)
    ensures !Drops(e) && Listed(w, e.fd) && Rec(w, e.fd) == w.clients[e.at]
    ensures Rec(Apply(w, e), e.fd) == ServedRec(w.ring, w.clients[e.at], e)
  {
    TurnOnClients(w, e);
    if Drops(e) {
      SwapRemovedIsRemoval(w.clients, e.at);
      assert false;
    }
    RecOfUpdate(w, Apply(w, e), e.at, ServedRec(w.ring, w.clients[e.at], e));
  }

  lemma ServeProjects(w: World, e: Event, f: Fd)
    requires Inv(w) && Enabled(w, e) && e.Serve? && Listed(w, f) && Listed(Apply(w, e), f)
    ensures Projects(w, e, Apply(w, e), f)
  {
    if e.fd != f {
      OtherTurnProjects(w, e, f);
    } else {
      OwnTurnRec(w, e);
      OwnTurnBytes(w, e);
    }
  }

  lemma JoinProjects(w: World, e: Event, f: Fd)
    requires Inv(w) && Enabled(w, e) && (e.Join? || e.Refuse?) && Listed(w, f)
    ensures Listed(Apply(w, e), f) && Projects(w, e, Apply(w, e), f)
  {
    StepKeeps(w, e);
    assert f in w.kernel.sent;
    assert Rec(w, f) in Apply(w, e).clients;
    BystanderProjects(w, e, Apply(w, e), f);
  }

  lemma DrainOnClients(w: World, e: Event)
    requires Enabled(w, e) && e.Drain?
    ensures Apply(w, e).clients == w.clients[e.at := DrainAnswer(w.clients[e.at], e.n)]
  {
  }

  lemma DrainProjects(w: World, e: Event, f: Fd)
    requires Inv(w) && Enabled(w, e) && e.Drain? && Listed(w, f)
    ensures Listed(Apply(w, e), f) && Projects(w, e, Apply(w, e), f)
  {
    var w' := Apply(w, e);
    if e.fd == f {
      RecOfUpdate(w, w', e.at, DrainAnswer(w.clients[e.at], e.n));
    } else {
      UpdateIsLocal(w.clients, e.at, DrainAnswer(w.clients[e.at], e.n));
      BystanderProjects(w, e, w', f);
    }
  }

  lemma LossProjects(w: World, e: Event, f: Fd)
    requires Inv(w) && Enabled(w, e) && (e.Evict? || e.Output?) && Listed(w, f) && Listed(Apply(w, e), f)
    ensures Projects(w, e, Apply(w, e), f)
  {
    var w', c := Apply(w, e), Rec(w, f);
    var gone := if e.Evict? then AttachedFds(w.clients) else e.bad;
    WithoutIsFilter(w.clients, gone);
    assert f !in gone;
    assert c in w'.clients && f in w.kernel.sent;
    if Hears(e, f) {
      RecIsUnique(w', f, c);
    } else {
      BystanderProjects(w, e, w', f);
    }
  }

  lemma StepProjects(w: World, e: Event, f: Fd)
    requires Inv(w) && Enabled(w, e) && Listed(w, f) && Listed(Apply(w, e), f)
    ensures Projects(w, e, Apply(w, e), f)
  {
    match e
    case Join(_, _, _) => JoinProjects(w, e, f);
    case Refuse(_, _, _) => JoinProjects(w, e, f);
    case Serve(_, _, _, _) => ServeProjects(w, e, f);
    case Evict => LossProjects(w, e, f);
    case Drain(_, _, _) => DrainProjects(w, e, f);
    case Output(_, _, _) => LossProjects(w, e, f);
  }

  /** Only an attached client hears live output. */
  lemma HearsOnlyAttached(w: World, e: Event, f: Fd)
    requires Inv(w) && Enabled(w, e) && Hears(e, f)
    ensures Listed(w, f) && Rec(w, f).attached
  {
    AttachedIsRec(w, f);
  }

  /** The client on `f` is there at the start and after every step. */
  ghost predicate Stays(w: World, es: seq<Event>, f: Fd)
    requires Legal(w, es)
    decreases |es|
  {
    Listed(After(w, es), f) && (es == [] || Stays(w, es[..|es| - 1], f))
  }

  lemma StaysOneStep(w: World, e: Event, f: Fd)
    requires Legal(w, [e]) && Listed(w, f) && Listed(After(w, [e]), f)
    ensures Stays(w, [e], f)
  {
    assert [e][..0] == [];
    assert Stays(w, [], f);
  }

  /** The ring after a step. */
  ghost function RingAfter(ring: Ring, e: Event): Ring
    requires ring.Valid()
  {
    if e.Output? then Appended(ring, e.data) else ring
  }

  /** One step seen by a client it does not end. */
  ghost predicate Moves(w: World, e: Event, w': World, f: Fd) {
    && Inv(w)
    && Listed(w, f) && Listed(w', f)
    && Projects(w, e, w', f)
    && w'.ring == RingAfter(w.ring, e)
    && (Hears(e, f) ==> Rec(w, f).attached)
    && (Drains(e, f) ==> Rec(w, f).replayRemaining > 0)
  }

  lemma StepMoves(w: World, e: Event, f: Fd)
    requires Inv(w) && Enabled(w, e) && Listed(w, f) && Listed(Apply(w, e), f)
    ensures Moves(w, e, Apply(w, e), f)
  {
    StepProjects(w, e, f);
    if Hears(e, f) {
      HearsOnlyAttached(w, e, f);
    }
    if e.Serve? {
      TurnOnClients(w, e);
    }
    if Drains(e, f) {
      RecIsUnique(w, f, w.clients[e.at]);
    }
  }

  /** The last step of a run, seen by a client that stays. */
  lemma LastStep(w: World, es: seq<Event>, f: Fd)
    requires Inv(w) && Legal(w, es) && Stays(w, es, f) && es != []
    ensures Legal(w, es[..|es| - 1]) && Stays(w, es[..|es| - 1], f)
    ensures Moves(After(w, es[..|es| - 1]), es[|es| - 1], After(w, es), f)
  {
    RunKeeps(w, es[..|es| - 1]);
    StepMoves(After(w, es[..|es| - 1]), es[|es| - 1], f);
  }
}
