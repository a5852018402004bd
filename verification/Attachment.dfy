/** When a client is attached, and when replay and live output can mix. */
module Attachment {
  import opened Bytes
  import opened KernelModel
  import opened ScrollbackRing
  import opened Protocol
  import opened Replay
  import opened DaemonModel
  import opened DaemonSafety
  import opened Batch
  import opened ClientView

  predicate AttachesClient(e: Event, f: Fd) {
    Serves(e, f) && Carries(e, Attach)
  }

  predicate DetachesClient(e: Event, f: Fd) {
    Serves(e, f) && Carries(e, Detach)
  }

  // ---- silence and origin --------------------------------------------------

  predicate Silent(c: Client) {
    !c.attached && c.replayRemaining == 0
  }

  ghost predicate NoAttach(es: seq<Event>, f: Fd) {
    forall e <- es :: !AttachesClient(e, f)
  }

  /** A client starts silent and stays so, receiving nothing whatever, until its
      own Attach is served. */
  lemma {:induction false} SilentUntilAttach(w: World, es: seq<Event>, f: Fd)
    requires Inv(w) && Legal(w, es) && Stays(w, es, f) && NoAttach(es, f)
    requires Listed(w, f) && Silent(Rec(w, f))
    ensures Rec(After(w, es), f) == Rec(w, f) && SentTo(After(w, es), f) == SentTo(w, f)
  {
    if es == [] {
    } else {
      var before, e := es[..|es| - 1], es[|es| - 1];
      assert es == before + [e];
      SilentUntilAttach(w, before, f);
      LastStep(w, es, f);
      SilenceMoves(After(w, before), e, After(w, es), f);
    }
  }

  lemma SilenceMoves(w: World, e: Event, w': World, f: Fd)
    requires Moves(w, e, w', f) && Silent(Rec(w, f)) && !AttachesClient(e, f)
    ensures Rec(w', f) == Rec(w, f) && SentTo(w', f) == SentTo(w, f)
  {
    assert SentTo(w, f) + [] == SentTo(w, f);
  }

  /** A client becomes attached only by its own Attach or by the end of its replay ... */
  lemma AttachmentOrigin(w: World, e: Event, f: Fd)
    requires Inv(w) && Enabled(w, e) && Listed(w, f) && Listed(Apply(w, e), f)
    requires !Rec(w, f).attached && Rec(Apply(w, e), f).attached
    ensures AttachesClient(e, f) || (Drains(e, f) && e.n == Rec(w, f).replayRemaining > 0)
  {
    StepProjects(w, e, f);
    if Drains(e, f) {
      RecIsUnique(w, f, w.clients[e.at]);
    }
  }

  /** ... and a replay begins only by its own Attach. */
  lemma ReplayOrigin(w: World, e: Event, f: Fd)
    requires Inv(w) && Enabled(w, e) && Listed(w, f) && Listed(Apply(w, e), f)
    requires Rec(w, f).replayRemaining < Rec(Apply(w, e), f).replayRemaining
    ensures AttachesClient(e, f) && WantsReplay(w.ring, e.got.pkt)
  {
    StepProjects(w, e, f);
  }

  // ---- what a served Attach does -------------------------------------------

  /** An Attach whose `len` is not 0 has the client attached at once: nothing is
      sent, and a replay that was pending stays where it was.  So has one that
      comes when there is nothing to replay. */
  lemma AttachWithoutReplay(w: World, e: Event)
    requires Inv(w) && Enabled(w, e) && e.Serve? && e.got.Msg? && e.got.pkt.msgType == 1
    requires e.got.pkt.len != 0 || w.ring.Contents() == []
    ensures
      var w' := Apply(w, e);
      && Listed(w, e.fd) && Listed(w', e.fd) && SentTo(w', e.fd) == SentTo(w, e.fd)
      && Rec(w', e.fd) == Rec(w, e.fd).(attached := true)
  {
    TurnOnClients(w, e);
    RecOfUpdate(w, Apply(w, e), e.at, ServedRec(w.ring, w.clients[e.at], e));
    OwnTurnBytes(w, e);
  }

  /** The bytes of the ring still to be replayed to a client. */
  ghost function ToReplay(ring: Ring, c: Client): seq<byte>
    requires ring.Valid() && c.replayHead < SCROLLBACK_SIZE && c.replayRemaining <= SCROLLBACK_SIZE
  {
    Slice(ring.buf, c.replayHead, c.replayRemaining)
  }

  /** Between the transcripts `before` and `now` a client, now `c`, was sent a first part
      of `whole` and has the rest still to come. */
  ghost predicate ReplayedPart(ring: Ring, whole: seq<byte>, before: seq<byte>, now: seq<byte>, c: Client) {
    && ring.Valid() && c.replayHead < SCROLLBACK_SIZE && c.replayRemaining <= SCROLLBACK_SIZE
    && before <= now && now[|before|..] + ToReplay(ring, c) == whole
  }

  lemma PartReplayed(ring: Ring, from: nat, total: nat, n: nat, before: seq<byte>, c: Client)
    requires ring.Valid() && from < SCROLLBACK_SIZE && n <= total <= SCROLLBACK_SIZE
    requires c.replayHead == Wrap(from + n) && c.replayRemaining == total - n
    ensures ReplayedPart(ring, Slice(ring.buf, from, total), before, before + Slice(ring.buf, from, n), c)
  {
    SlicesMeet(ring.buf, from, n, total - n);
  }

  /** Any other Attach begins a replay of all the ring holds: what is sent at once
      and what remains to be replayed are the ring's contents, and the client is
      attached exactly if it was before or nothing remains. */
  lemma AttachWithReplay(w: World, e: Event)
    requires Inv(w) && Enabled(w, e) && e.Serve? && e.got.Msg? && e.got.pkt.msgType == 1
    requires e.got.pkt.len == 0 && w.ring.Contents() != []
    ensures
      var w', f := Apply(w, e), e.fd;
      && Listed(w, f) && Listed(w', f)
      && ReplayedPart(w'.ring, w.ring.Contents(), SentTo(w, f), SentTo(w', f), Rec(w', f))
      && (Rec(w', f).attached <==> Rec(w, f).attached || Rec(w', f).replayRemaining == 0)
  {
    var c' := ServedRec(w.ring, w.clients[e.at], e);
    TurnOnClients(w, e);
    RecOfUpdate(w, Apply(w, e), e.at, c');
    OwnTurnBytes(w, e);
    PartReplayed(w.ring, w.ring.head, w.ring.len, e.n, SentTo(w, e.fd), c');
  }

  /** A pending replay goes on where it stopped and loses nothing, and its end, and
      nothing else, attaches the client. */
  lemma DrainGoesOnFromCursor(w: World, e: Event)
    requires Inv(w) && Enabled(w, e) && e.Drain?
    ensures
      var w', f := Apply(w, e), e.fd;
      && Listed(w, f) && Listed(w', f)
      && ReplayedPart(w'.ring, ToReplay(w.ring, Rec(w, f)), SentTo(w, f), SentTo(w', f), Rec(w', f))
      && (Rec(w', f).attached <==> Rec(w, f).attached || Rec(w', f).replayRemaining == 0)
  {
    var c := w.clients[e.at];
    DrainOnClients(w, e);
    RecOfUpdate(w, Apply(w, e), e.at, DrainAnswer(c, e.n));
    PartReplayed(w.ring, c.replayHead, c.replayRemaining, e.n, SentTo(w, e.fd), DrainAnswer(c, e.n));
  }

  // ---- keeping replay and live output apart --------------------------------

  /** Live output is not sent while old output is still pending. */
  predicate Apart(c: Client) {
    c.attached ==> c.replayRemaining == 0
  }

  /** A replay may be asked for only while detached, anything else only with no
      replay pending. */
  predicate AttachGuard(c: Client, ring: Ring, pkt: Packet) {
    if WantsReplay(ring, pkt) then !c.attached else c.replayRemaining == 0
  }

  /** The guard is exact: an Attach keeps the two streams apart, however much of
      the replay the socket takes at once, if and only if the guard held. */
  lemma AttachGuardIsExact(c: Client, ring: Ring, pkt: Packet)
    requires ring.Valid() && pkt.msgType == Attach.ToU8() && Apart(c)
    ensures AttachGuard(c, ring, pkt) <==> forall n: nat | n <= Room(ring, pkt) :: Apart(AttachAnswer(c, ring, pkt, n))
  {
    if !AttachGuard(c, ring, pkt) {
      assert 0 <= Room(ring, pkt) && !Apart(AttachAnswer(c, ring, pkt, 0));
    }
  }

  ghost predicate AllApart(w: World) {
    forall c <- w.clients :: Apart(c)
  }

  ghost predicate Guarded(w: World, e: Event)
    requires Enabled(w, e)
  {
    Carries(e, Attach) ==> AttachGuard(w.clients[e.at], w.ring, e.got.pkt)
  }

  lemma ClientKeptApart(w: World, e: Event, c: Client)
    requires Inv(w) && AllApart(w) && Enabled(w, e) && Guarded(w, e)
    requires Listed(w, c.fd) && Listed(Apply(w, e), c.fd) && Rec(Apply(w, e), c.fd) == c
    ensures Apart(c)
  {
    StepProjects(w, e, c.fd);
    if Serves(e, c.fd) {
      RecIsUnique(w, c.fd, w.clients[e.at]);
    }
  }

  /** Under the guard every step keeps every client's streams apart. */
  lemma StepKeepsApart(w: World, e: Event)
    requires Inv(w) && AllApart(w) && Enabled(w, e) && Guarded(w, e)
    ensures AllApart(Apply(w, e))
  {
    var w' := Apply(w, e);
    StepKeeps(w, e);
    forall c <- w'.clients ensures Apart(c) {
      RecIsUnique(w', c.fd, c);
      if Listed(w, c.fd) {
        ClientKeptApart(w, e, c);
      } else {
        NewcomersAreSilent(w, e, c);
      }
    }
  }

  lemma NewcomersAreSilent(w: World, e: Event, c: Client)
    requires Inv(w) && Enabled(w, e) && c in Apply(w, e).clients && !Listed(w, c.fd)
    ensures e.Join? && Silent(c)
  {
    match e
    case Join(_, _, _) =>
    case Refuse(_, _, _) =>
    case Serve(_, _, _, _) => PacketTouchesOnlySender(w, e);
    case Evict => WithoutIsFilter(w.clients, AttachedFds(w.clients));
    case Drain(_, _, _) => UpdateIsLocal(w.clients, e.at, Apply(w, e).clients[e.at]);
    case Output(_, _, bad) => WithoutIsFilter(w.clients, bad);
  }

  ghost predicate GuardedRun(w: World, es: seq<Event>)
    requires Legal(w, es)
    decreases |es|
  {
    es == [] || (GuardedRun(w, es[..|es| - 1]) && Guarded(After(w, es[..|es| - 1]), es[|es| - 1]))
  }

  lemma {:induction false} RunKeepsApart(w: World, es: seq<Event>)
    requires Inv(w) && AllApart(w) && Legal(w, es) && GuardedRun(w, es)
    ensures AllApart(After(w, es))
  {
    if es == [] {
    } else {
      RunKeepsApart(w, es[..|es| - 1]);
      RunKeeps(w, es[..|es| - 1]);
      StepKeepsApart(After(w, es[..|es| - 1]), es[|es| - 1]);
    }
  }

  /** What a Detach does to the client's record. */
  lemma DetachClears(w: World, e: Event, f: Fd)
    requires Inv(w) && Enabled(w, e) && DetachesClient(e, f)
    ensures
      var c, w' := w.clients[e.at], Apply(w, e);
      && Inv(w') && w'.ring == w.ring && w'.clients == w.clients[e.at := c.(attached := false)]
      && Listed(w', f) && Rec(w', f) == c.(attached := false)
  {
    StepKeeps(w, e);
    TurnOnClients(w, e);
    RecOfUpdate(w, Apply(w, e), e.at, w.clients[e.at].(attached := false));
  }

  /** A pending replay that goes out in one piece attaches its client. */
  lemma ReplayAttaches(w: World, at: nat) returns (es: seq<Event>)
    requires Inv(w) && at < |w.clients| && w.clients[at].replayRemaining > 0
    ensures
      var f := w.clients[at].fd;
      Legal(w, es) && Stays(w, es, f) && NoAttach(es, f) && Rec(After(w, es), f).attached
  {
    var c := w.clients[at];
    assert c in w.clients && c.fd in Fds(w.clients);
    var e := Drain(c.fd, at, c.replayRemaining);
    es := [e];
    OneStep(w, e);
    DrainOnClients(w, e);
    RecOfUpdate(w, Apply(w, e), at, DrainAnswer(c, c.replayRemaining));
    StaysOneStep(w, e, c.fd);
  }

  /** A Detach stays in force over every further run in which the client does not
      ask to be attached again, if and only if no replay was pending: a pending one
      goes on, and its end attaches the client. */
  lemma DetachIsFinalOnlyWithoutReplay(w: World, e: Event, f: Fd)
    requires Inv(w) && Enabled(w, e) && DetachesClient(e, f)
    ensures w.clients[e.at].replayRemaining == 0 <==>
      forall es | Legal(Apply(w, e), es) && Stays(Apply(w, e), es, f) && NoAttach(es, f) ::
        !Rec(After(Apply(w, e), es), f).attached
  {
    DetachClears(w, e, f);
    var w1 := Apply(w, e);
    if w.clients[e.at].replayRemaining == 0 {
      forall es | Legal(w1, es) && Stays(w1, es, f) && NoAttach(es, f) ensures !Rec(After(w1, es), f).attached {
        SilentUntilAttach(w1, es, f);
      }
    } else {
      var es := ReplayAttaches(w1, e.at);
    }
  }

  // ---- clients that follow the protocol ------------------------------------

  /** Was the client's last word an Attach? */
  function LastWordIsAttach(es: seq<Event>, f: Fd): bool {
    if es == [] then false
    else
      var e := es[|es| - 1];
      if AttachesClient(e, f) then true
      else if DetachesClient(e, f) then false
      else LastWordIsAttach(es[..|es| - 1], f)
  }

  /** What an attaching client sends: Attach, Detach, Attach, ... in turn. */
  ghost predicate TakesTurns(es: seq<Event>, f: Fd)
    decreases |es|
  {
    es == [] ||
    (var before, e := es[..|es| - 1], es[|es| - 1];
     && TakesTurns(before, f)
     && (AttachesClient(e, f) ==> !LastWordIsAttach(before, f))
     && (DetachesClient(e, f) ==> LastWordIsAttach(before, f)))
  }

  /** Every Detach arrives when the replay is over. */
  ghost predicate DetachesAfterReplay(w: World, es: seq<Event>, f: Fd)
    requires Legal(w, es) && Stays(w, es, f)
    decreases |es|
  {
    es == [] ||
    (var before, e := es[..|es| - 1], es[|es| - 1];
     && DetachesAfterReplay(w, before, f)
     && (DetachesClient(e, f) ==> Rec(After(w, before), f).replayRemaining == 0))
  }

  /** A client that alternates Attach and Detach, and never detaches in mid-replay,
      is at every moment either silent, or replaying, or live, as its last word says. */
  lemma {:induction false} WellTimedClientStaysApart(w: World, es: seq<Event>, f: Fd)
    requires Inv(w) && Legal(w, es) && Stays(w, es, f) && Listed(w, f) && Silent(Rec(w, f))
    requires TakesTurns(es, f) && DetachesAfterReplay(w, es, f)
    ensures
      var c := Rec(After(w, es), f);
      && (LastWordIsAttach(es, f) ==> (c.attached <==> c.replayRemaining == 0))
      && (!LastWordIsAttach(es, f) ==> Silent(c))
      && Apart(c)
  {
    if es == [] {
    } else {
      var before, e := es[..|es| - 1], es[|es| - 1];
      WellTimedClientStaysApart(w, before, f);
      LastStep(w, es, f);
    }
  }
}
