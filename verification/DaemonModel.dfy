/** The session daemon of src/session_daemon.rs as a state machine: its state,
    the steps of its event loop, and runs of steps.  Each step carries the
    answers the kernel gave while it was taken. */
module DaemonModel {
  import opened Bytes
  import opened KernelModel
  import opened ScrollbackRing
  import opened Protocol

  const BUFSIZE: nat := 4096
  const CTRL_L: byte := 12
  const REDRAW_CTRL_L: byte := 2
  const REDRAW_WINCH: byte := 3
  const SIGTERM: nat := 15
  const SIGWINCH: nat := 28

  /** src/client.rs: one connected client. */
  datatype Client = Client(fd: Fd, attached: bool, replayHead: nat, replayRemaining: nat, peerPid: nat)

  /** A new client is neither attached nor being replayed to. */
  function NewClient(fd: Fd, pid: nat): (c: Client)
    ensures c.fd == fd && c.peerPid == pid && !c.attached && c.replayRemaining == 0
  {
    Client(fd, false, 0, 0, pid)
  }

  datatype World = World(
    clients: seq<Client>,
    evict: bool,
    ring: Ring,
    kernel: Kernel,
    log: Option<seq<byte>>)      // the session log, when there is one

  // ---- client lists --------------------------------------------------------

  ghost function Fds(cs: seq<Client>): set<Fd> {
    set c | c in cs :: c.fd
  }

  ghost function AttachedFds(cs: seq<Client>): set<Fd> {
    set c | c in cs && c.attached :: c.fd
  }

  ghost predicate DistinctFds(cs: seq<Client>) {
    forall i, j :: 0 <= i < j < |cs| ==> cs[i].fd != cs[j].fd
  }

  /** Vec::swap_remove: the last element takes the place of the removed one. */
  function SwapRemoved(cs: seq<Client>, i: nat): (r: seq<Client>)
    requires i < |cs|
    ensures |r| == |cs| - 1
  {
    if i == |cs| - 1 then cs[..i] else cs[..|cs| - 1][i := cs[|cs| - 1]]
  }

  /** Vec::retain: the clients whose descriptor is not in `gone`, in order. */
  function Without(cs: seq<Client>, gone: set<Fd>): seq<Client> {
    if cs == [] then []
    else
      var last := cs[|cs| - 1];
      Without(cs[..|cs| - 1], gone) + (if last.fd in gone then [] else [last])
  }

  lemma {:induction false} WithoutIsFilter(cs: seq<Client>, gone: set<Fd>)
    ensures forall c: Client :: c in Without(cs, gone) <==> c in cs && c.fd !in gone
    ensures IsSubsequence(Without(cs, gone), cs)
    ensures DistinctFds(cs) ==> DistinctFds(Without(cs, gone))
  {
    if cs == [] {
    } else {
      var rest, last := cs[..|cs| - 1], cs[|cs| - 1];
      WithoutIsFilter(rest, gone);
      assert cs == rest + [last];
      var r, r0 := Without(cs, gone), Without(rest, gone);
      if last.fd in gone {
        assert r == r0;
      } else {
        assert r == r0 + [last] && r[..|r| - 1] == r0;
      }
    }
  }

  lemma SwapRemovedIsRemoval(cs: seq<Client>, i: nat)
    requires i < |cs| && DistinctFds(cs)
    ensures DistinctFds(SwapRemoved(cs, i))
    ensures forall c: Client :: c in SwapRemoved(cs, i) <==> c in cs && c.fd != cs[i].fd
  {
    var r, n := SwapRemoved(cs, i), |cs| - 1;
    forall c: Client | c in cs && c.fd != cs[i].fd ensures c in r {
      var j :| 0 <= j < |cs| && cs[j] == c;
      assert if j == n then r[i] == c else r[j] == c;
    }
  }

  lemma UpdateIsLocal(cs: seq<Client>, i: nat, c': Client)
    requires i < |cs| && DistinctFds(cs) && c'.fd == cs[i].fd
    ensures DistinctFds(cs[i := c'])
    ensures forall c: Client :: c in cs[i := c'] <==> c == c' || (c in cs && c.fd != c'.fd)
    ensures Fds(cs[i := c']) == Fds(cs)
  {
    var r := cs[i := c'];
    forall c: Client | c in cs && c.fd != c'.fd ensures c in r {
      var j :| 0 <= j < |cs| && cs[j] == c;
      assert r[j] == c;
    }
    assert r[i] == c';
    forall f | f in Fds(cs) ensures f in Fds(r) {
      var j :| 0 <= j < |cs| && cs[j].fd == f;
      assert r[j] in r && r[j].fd == f;
    }
  }

  // ---- steps ---------------------------------------------------------------

  /** What reading one packet from a client gave. */
  datatype Got = Msg(pkt: Packet) | Gone | Partial(lost: nat)

  datatype Event =
    | Join(fd: Fd, pid: nat, stream: seq<byte>)               // a client was accepted
    | Refuse(fd: Fd, stream: seq<byte>, warning: seq<byte>)   // accepted, but closed at once
    | Serve(fd: Fd, at: nat, got: Got, n: nat)                // one client's turn in a packet batch
    | Evict                                                   // the deferred force-detach
    | Drain(fd: Fd, at: nat, n: nat)                          // `n` bytes of one client's pending replay
    | Output(data: seq<byte>, wrote: set<Fd>, bad: set<Fd>)   // one chunk read, stored and fanned out

  function PushPayload(pkt: Packet): (s: seq<byte>)
    ensures |s| == Min(pkt.len, 8) && s <= pkt.data
  {
    pkt.data[..Min(pkt.len, 8)]
  }

  /** What a Push packet asks to be typed. */
  function Offer(fd: Fd, pkt: Packet): seq<PtyInput> {
    if PushPayload(pkt) == [] then [] else [Pushed(fd, PushPayload(pkt))]
  }

  /** An Attach packet starts a replay unless it asks not to or there is nothing to replay. */
  predicate WantsReplay(ring: Ring, pkt: Packet) {
    pkt.len == 0 && ring.len != 0
  }

  /** The most bytes the handler of `pkt` may get rid of. */
  function Room(ring: Ring, pkt: Packet): nat {
    match FromU8(pkt.msgType)
    case Some(Push) => |PushPayload(pkt)|
    case Some(Attach) => if WantsReplay(ring, pkt) then ring.len else 0
    case Some(Redraw) => if pkt.len == REDRAW_CTRL_L then 1 else 0
    case _ => 0
  }

  /** The client's record after its Attach, whose replay got `n` bytes out. */
  function AttachAnswer(c: Client, ring: Ring, pkt: Packet, n: nat): Client
    requires n <= Room(ring, pkt) && pkt.msgType == Attach.ToU8()
    requires ring.head < SCROLLBACK_SIZE && ring.len <= SCROLLBACK_SIZE
  {
    if !WantsReplay(ring, pkt) then c.(attached := true)
    else
      c.(replayHead := Wrap(ring.head + n),
         replayRemaining := ring.len - n,
         attached := c.attached || n == ring.len)
  }

  /** The client's record after `n` bytes of its pending replay went out. */
  function DrainAnswer(c: Client, n: nat): Client
    requires n <= c.replayRemaining && n <= SCROLLBACK_SIZE && c.replayHead < SCROLLBACK_SIZE
  {
    var left := c.replayRemaining - n;
    c.(replayHead := Wrap(c.replayHead + n), replayRemaining := left, attached := c.attached || left == 0)
  }

  function Dropped(w: World, i: nat): World
    requires i < |w.clients|
  {
    w.(clients := SwapRemoved(w.clients, i), kernel := w.kernel.Closed(w.clients[i].fd))
  }

  /** The effect of one packet, after its ten bytes were consumed. */
  ghost function Answer(w: World, i: nat, pkt: Packet, n: nat): World
    requires i < |w.clients| && w.ring.Valid() && w.kernel.IsOpen(w.clients[i].fd) && n <= Room(w.ring, pkt)
  {
    var c := w.clients[i];
    match FromU8(pkt.msgType)
    case Some(Push) => w.(kernel := w.kernel.Typed(Pushed(c.fd, PushPayload(pkt)[..n])))
    case Some(Attach) =>
      w.(clients := w.clients[i := AttachAnswer(c, w.ring, pkt, n)],
         kernel := w.kernel.Sent(c.fd, if WantsReplay(w.ring, pkt) then Slice(w.ring.buf, w.ring.head, n) else []))
    case Some(Detach) => w.(clients := w.clients[i := c.(attached := false)])
    case Some(Winch) => w.(kernel := w.kernel.Resized(pkt.data))
    case Some(Redraw) =>
      var k := w.kernel.Resized(pkt.data);
      w.(kernel :=
        if pkt.len == REDRAW_CTRL_L then k.Typed(CtrlL(c.fd, [CTRL_L][..n]))
        else if pkt.len == REDRAW_WINCH then k.Signalled(SIGWINCH)
        else k)
    case Some(Kill) => w.(kernel := w.kernel.Signalled(if pkt.len != 0 then pkt.len else SIGTERM))
    case Some(ForceDetach) => Dropped(w, i).(evict := true)
    case Some(Info) => Dropped(w, i)
    case None => w
  }

  function FannedOut(k: Kernel, data: seq<byte>, wrote: set<Fd>, bad: set<Fd>): Kernel {
    k.(sent := map f | f in k.sent && f !in bad :: if f in wrote then k.sent[f] + data else k.sent[f],
       inbox := k.inbox - bad,
       closes := k.closes + multiset(bad))
  }

  /** The connections of everyone in `gone` closed together. */
  function ClosedAll(k: Kernel, gone: set<Fd>): Kernel {
    k.(sent := k.sent - gone, inbox := k.inbox - gone, closes := k.closes + multiset(gone))
  }

  ghost predicate Enabled(w: World, e: Event) {
    && w.ring.Valid()
    && match e
       case Join(fd, _, _) => fd !in w.kernel.sent && fd !in w.kernel.inbox
       case Refuse(fd, _, _) => fd !in w.kernel.sent && fd !in w.kernel.inbox
       case Serve(fd, at, got, n) =>
         && at < |w.clients| && w.clients[at].fd == fd && w.kernel.IsOpen(fd)
         && (match got
             case Gone => true
             case Partial(lost) => lost < PACKET_SIZE && lost <= |w.kernel.inbox[fd]|
             case Msg(pkt) => Encode(pkt) <= w.kernel.inbox[fd] && n <= Room(w.ring, pkt))
       case Evict => w.evict
       case Drain(fd, at, n) =>
         && at < |w.clients| && w.clients[at].fd == fd && w.kernel.IsOpen(fd)
         && 0 < w.clients[at].replayRemaining <= SCROLLBACK_SIZE && w.clients[at].replayHead < SCROLLBACK_SIZE
         && n <= w.clients[at].replayRemaining
       case Output(data, wrote, bad) =>
         && 0 < |data| <= BUFSIZE
         && wrote !! bad && wrote + bad <= AttachedFds(w.clients)
  }

  function Logged(log: Option<seq<byte>>, text: seq<byte>): Option<seq<byte>> {
    match log
    case None => None
    case Some(l) => Some(l + text)
  }

  ghost function Apply(w: World, e: Event): World
    requires Enabled(w, e)
  {
    match e
    case Join(fd, pid, stream) =>
      w.(clients := w.clients + [NewClient(fd, pid)], kernel := w.kernel.Accepted(fd, stream))
    case Refuse(fd, stream, warning) =>
      w.(kernel := w.kernel.Accepted(fd, stream).Closed(fd), log := Logged(w.log, warning))
    case Serve(fd, at, got, n) =>
      (match got
       case Gone => Dropped(w, at)
       case Partial(lost) => w.(kernel := w.kernel.Consumed(fd, lost))
       case Msg(pkt) => Answer(w.(kernel := w.kernel.Consumed(fd, PACKET_SIZE)), at, pkt, n))
    case Evict =>
      var gone := AttachedFds(w.clients);
      w.(clients := Without(w.clients, gone), kernel := ClosedAll(w.kernel, gone), evict := false)
    case Drain(fd, at, n) =>
      var c := w.clients[at];
      w.(clients := w.clients[at := DrainAnswer(c, n)],
         kernel := w.kernel.Sent(fd, Slice(w.ring.buf, c.replayHead, n)))
    case Output(data, wrote, bad) =>
      w.(clients := Without(w.clients, bad),
         ring := Appended(w.ring, data),
         kernel := FannedOut(w.kernel.Shown(data), data, wrote, bad),
         log := Logged(w.log, data))
  }

  // ---- runs ----------------------------------------------------------------

  ghost predicate Legal(w: World, es: seq<Event>)
    decreases |es|, 0
  {
    es == [] || (Legal(w, es[..|es| - 1]) && Enabled(After(w, es[..|es| - 1]), es[|es| - 1]))
  }

  ghost function After(w: World, es: seq<Event>): World
    requires Legal(w, es)
    decreases |es|, 1
  {
    if es == [] then w else Apply(After(w, es[..|es| - 1]), es[|es| - 1])
  }

  lemma LegalSnoc(w: World, es: seq<Event>, e: Event)
    requires Legal(w, es) && Enabled(After(w, es), e)
    ensures Legal(w, es + [e]) && After(w, es + [e]) == Apply(After(w, es), e)
  {
    assert (es + [e])[..|es|] == es;
  }

  lemma {:induction false} LegalConcat(w: World, a: seq<Event>, b: seq<Event>)
    requires Legal(w, a)
    ensures Legal(w, a + b) <==> Legal(After(w, a), b)
    ensures Legal(w, a + b) ==> After(w, a + b) == After(After(w, a), b)
    decreases |b|
  {
    if b == [] {
      assert a + b == a;
    } else {
      var b0 := b[..|b| - 1];
      LegalConcat(w, a, b0);
      assert (a + b)[..|a + b| - 1] == a + b0;
    }
  }
}
