/** The session daemon itself, src/session_daemon.rs: a class whose methods
    update the client list, the ring, the log and the kernel in place.  Every
    method hands back the steps it took; what those steps mean is proved about
    `DaemonModel`. */
module Daemon {
  import opened Bytes
  import opened KernelModel
  import opened ScrollbackRing
  import opened Protocol
  import opened Replay
  import opened Files
  import opened Logs
  import opened DaemonModel
  import opened DaemonSafety
  import opened Batch
  import opened FanOut
  import opened InfoReply
  import opened Turns
  import opened Passes

  lemma SomeTargetReady(listener: Fd, canRead: set<Fd>, targets: set<Fd>, canWrite: set<Fd>)
    requires canRead <= {listener} && canWrite <= targets && canRead + canWrite != {}
    ensures listener in canRead || targets * canWrite != {}
  {
    assert targets * canWrite == canWrite;
    if listener !in canRead {
      assert canRead == {};
    }
  }

  lemma WatchedAreOpen(w: World, readers: set<Fd>, writers: set<Fd>, listener: Fd, pty: Fd)
    requires Inv(w) && readers == {listener, pty} + Fds(w.clients)
    requires writers == set c | c in w.clients && c.replayRemaining > 0 :: c.fd
    ensures listener in readers
    ensures forall fd <- readers + writers :: w.kernel.IsOpen(fd) || fd == listener || fd == pty
  {
    assert forall c <- w.clients :: c.fd in Fds(w.clients);
  }

  class SessionDaemon {
    const os: Os
    const scrollback: Scrollback
    const appLog: AppLog
    const reason: seq<byte>        // why a connection is rejected
    const warning: seq<byte>       // the line that says so in the session log
    const marker: seq<byte>        // the line logged when the session ends
    var clients: seq<Client>
    var log: SessionLog?
    var hasAttached: bool
    var evictAttached: bool

    ghost function LogFile(): set<File>
      reads this
    {
      if log == null then {} else {log.file}
    }

    ghost function View(): World
      reads this, os, scrollback, scrollback.buf, LogFile()
    {
      World(clients, evictAttached, scrollback.View(), os.k,
            if log == null then None else Some(log.file.content))
    }

    /** What the kernel has been asked. */
    ghost function Asked(): Trace
      reads os
    {
      Trace(os.selects, os.accepted, os.ptyReads, os.pushed, |os.redraws|, os.told, os.attempts,
            os.transients, os.failures)
    }

    ghost predicate Valid()
      reads this, os, scrollback, scrollback.buf, LogFile()
    {
      && Inv(View())
      && (log != null ==> log.file.AtEnd() && log.file != appLog.file)
      && os.listener !in os.k.sent && os.pty !in os.k.sent
    }

    /** The steps `es` lead from `w` to the present state. */
    ghost predicate Reached(w: World, es: seq<Event>)
      reads this, os, scrollback, scrollback.buf, LogFile()
    {
      Legal(w, es) && After(w, es) == View()
    }

    /** Start with no clients, an empty ring and, when a size is configured and the
        file can be opened, the session log opened and pruned. */
    constructor (os: Os, logFile: File, logMaxSize: nat, canOpen: bool, appLog: AppLog,
                 reason: seq<byte>, warning: seq<byte>, marker: seq<byte>)
      requires os.k == NEW_KERNEL && logFile != appLog.file
      modifies logFile
      ensures Valid() && this.os == os && this.appLog == appLog && clients == [] && !evictAttached
      ensures this.reason == reason && this.warning == warning && this.marker == marker
      ensures fresh(scrollback) && fresh(scrollback.buf)
      ensures log == null <==> logMaxSize == 0 || !canOpen
      ensures log != null ==> log.file == logFile && logFile.content == Last(logMaxSize, old(logFile.content))
    {
      this.os := os;
      scrollback := new Scrollback();
      clients, hasAttached, evictAttached := [], false, false;
      this.appLog, this.reason, this.warning, this.marker := appLog, reason, warning, marker;
      log := null;
      new;
      if logMaxSize > 0 && canOpen {
        log := new SessionLog.Open(logFile, logMaxSize);
      }
    }

    // ---- accepting ---------------------------------------------------------

    /** A warning goes to both logs; `now` is the time. */
    method LogWarn(now: nat, message: seq<byte>, text: seq<byte>)
      requires log != null ==> log.file.AtEnd() && log.file != appLog.file
      modifies LogFile(), appLog.file
      ensures appLog.file.content == Last(APP_LOG_MAX_SIZE, old(appLog.file.content) + Line(now, LevelWarn, message))
      ensures log != null ==> log.file.AtEnd() && log.file.content == old(log.file.content) + text
    {
      appLog.Record(now, LevelWarn, message);
      if log != null {
        log.Write(text);
      }
    }

    /** The connection `accept` gave, if any: it starts detached with nothing to
        replay, or, if it cannot be made non-blocking, is closed again without ever
        being listed, and both logs say so. */
    method AcceptClient() returns (ghost es: seq<Event>, ghost answer: Option<Connection>, ghost line: seq<byte>)
      requires Valid()
      modifies this`clients, os`k, os`accepted, LogFile(), appLog.file
      ensures Valid() && Reached(old(View()), es)
      ensures JoinsOnly(es)
      ensures Asked() == old(Asked()).(accepts := old(os.accepted) + [answer])
      ensures AcceptOk(es, [answer], true)
      ensures Warned(old(appLog.file.content), appLog.file.content, es, line)
      ensures log == old(log)
    {
      ghost var w := View();
      ghost var stream;
      var conn;
      conn, answer, stream := os.Accept();
      es, line := [], [];
      if conn.Some? {
        es, line := Admit(conn.value, answer.value, stream, w);
      }
      RunKeeps(w, es);
      assert Inv(View());
    }

    /** A refusal puts a warning into the application log, nothing else does. */
    ghost predicate Warned(before: seq<byte>, after: seq<byte>, es: seq<Event>, line: seq<byte>) {
      if es != [] && es[0].Refuse? then after == Last(APP_LOG_MAX_SIZE, before + line) && IsWarning(line)
      else after == before
    }

    ghost predicate IsWarning(line: seq<byte>) {
      exists now :: line == Line(now, LevelWarn, reason)
    }

    /** A connection has been accepted: `w` is the state just before. */
    ghost predicate Arrived(fd: Fd, stream: seq<byte>, w: World)
      reads this, os, scrollback, scrollback.buf, LogFile()
    {
      && View() == w.(kernel := w.kernel.Accepted(fd, stream))
      && fd !in w.kernel.sent && fd !in w.kernel.inbox && w.ring.Valid()
      && (log != null ==> log.file.AtEnd() && log.file != appLog.file)
    }

    method Admit(fd: Fd, ghost c: Connection, ghost stream: seq<byte>, ghost w: World)
      returns (ghost es: seq<Event>, ghost line: seq<byte>)
      requires Arrived(fd, stream, w) && os.Newest(c) && c.fd == fd
      modifies this`clients, os`k, LogFile(), appLog.file
      ensures Reached(w, es) && JoinsOnly(es) && es != [] && Admits(es[0], c)
      ensures os.k.sent.Keys <= old(os.k.sent.Keys)
      ensures log != null ==> log.file.AtEnd()
      ensures Warned(old(appLog.file.content), appLog.file.content, es, line)
      ensures Asked() == old(Asked())
    {
      ghost var e;
      e, line := Decide(fd, c, stream, w);
      es := [e];
      assert es[..0] == [];
    }

    method Decide(fd: Fd, ghost c: Connection, ghost stream: seq<byte>, ghost w: World)
      returns (ghost e: Event, ghost line: seq<byte>)
      requires Arrived(fd, stream, w) && os.Newest(c) && c.fd == fd
      modifies this`clients, os`k, LogFile(), appLog.file
      ensures (e.Join? || e.Refuse?) && Admits(e, c) && Enabled(w, e) && View() == Apply(w, e)
      ensures os.k.sent.Keys <= old(os.k.sent.Keys)
      ensures log != null ==> log.file.AtEnd()
      ensures Warned(old(appLog.file.content), appLog.file.content, [e], line)
      ensures Asked() == old(Asked())
    {
      var ok := os.SetNonblocking(c);
      if !ok {
        e, line := Reject(fd, stream, w);
      } else {
        e := Register(fd, c, stream, w);
        line := [];
      }
    }

    method Reject(fd: Fd, ghost stream: seq<byte>, ghost w: World) returns (ghost e: Event, ghost line: seq<byte>)
      requires Arrived(fd, stream, w)
      modifies os`k, LogFile(), appLog.file
      ensures e == Refuse(fd, stream, warning) && Enabled(w, e) && View() == Apply(w, e)
      ensures os.k.sent.Keys <= old(os.k.sent.Keys)
      ensures log != null ==> log.file.AtEnd()
      ensures appLog.file.content == Last(APP_LOG_MAX_SIZE, old(appLog.file.content) + line) && IsWarning(line)
      ensures Asked() == old(Asked())
    {
      os.Close(fd);
      var now: nat :| true;
      LogWarn(now, reason, warning);
      e, line := Refuse(fd, stream, warning), Line(now, LevelWarn, reason);
    }

    method Register(fd: Fd, ghost c: Connection, ghost stream: seq<byte>, ghost w: World) returns (ghost e: Event)
      requires Arrived(fd, stream, w) && os.Newest(c)
      modifies this`clients
      ensures e == Join(fd, c.pid, stream) && Enabled(w, e) && View() == Apply(w, e)
    {
      var pid := os.PeerPid(c);
      clients := clients + [NewClient(fd, pid)];
      e := Join(fd, pid, stream);
    }

    // ---- one packet --------------------------------------------------------

    /** What every packet handler may assume of client `i`. */
    ghost predicate Serving(i: nat, pkt: Packet, t: Option<MsgType>)
      reads this, os, scrollback, scrollback.buf
    {
      && i < |clients| && os.k.IsOpen(clients[i].fd)
      && scrollback.View().Valid()
      && FromU8(pkt.msgType) == t
    }

    method HandlePush(i: nat, pkt: Packet) returns (keep: bool, ghost n: nat)
      requires Serving(i, pkt, Some(Push))
      modifies os`k, os`pushed, os`redraws
      ensures keep && n <= Room(scrollback.View(), pkt) && View() == Answer(old(View()), i, pkt, n)
      ensures os.pushed == old(os.pushed) + Offer(clients[i].fd, pkt) && os.redraws == old(os.redraws)
      ensures pkt.len > 0 ==>
        os.pushed == old(os.pushed) + [Pushed(clients[i].fd, if pkt.len < 8 then pkt.data[..pkt.len] else pkt.data)]
      ensures os.transients <= old(os.transients)
    {
      var dlen := Min(pkt.len, |pkt.data|);
      assert pkt.data[..8] == pkt.data;
      n := 0;
      if dlen > 0 {
        ghost var taken := os.Type(Pushed(clients[i].fd, pkt.data[..dlen]));
        n := |taken.bytes|;
        assert taken == Pushed(clients[i].fd, PushPayload(pkt)[..n]);
      }
      keep := true;
    }

    method HandleAttach(i: nat, cfd: Fd, pkt: Packet) returns (keep: bool, ghost n: nat)
      requires Serving(i, pkt, Some(Attach)) && clients[i].fd == cfd
      modifies this`clients, os`k, os`transients, os`failures, os`attempts
      ensures keep && n <= Room(scrollback.View(), pkt) && View() == Answer(old(View()), i, pkt, n)
      ensures pkt.len != 0 || scrollback.len == 0 ==>
        os.k == old(os.k) && clients == old(clients)[i := old(clients)[i].(attached := true)]
      ensures os.failures >= old(os.failures)
      ensures n == Room(scrollback.View(), pkt) || os.transients < old(os.transients) || os.failures > old(os.failures)
      ensures os.transients <= old(os.transients)
    {
      if pkt.len != 0 || scrollback.len == 0 {
        SentNothing(os.k, cfd);
        clients := clients[i := clients[i].(attached := true)];
        n := 0;
      } else {
        clients := clients[i := clients[i].(replayHead := scrollback.head, replayRemaining := scrollback.len)];
        var rs := new ReplayState(scrollback.head, scrollback.len);
        var ok := rs.Drain(os, cfd, scrollback);
        clients := clients[i := clients[i].(replayHead := rs.head, replayRemaining := rs.remaining)];
        if ok && rs.remaining == 0 {
          clients := clients[i := clients[i].(attached := true)];
        }
        n := scrollback.len - rs.remaining;
      }
      keep := true;
    }

    method HandleDetach(i: nat, ghost pkt: Packet) returns (keep: bool, ghost n: nat)
      requires Serving(i, pkt, Some(Detach))
      modifies this`clients
      ensures keep && n == 0 && View() == Answer(old(View()), i, pkt, n)
      ensures clients == old(clients)[i := old(clients)[i].(attached := false)]
    {
      clients := clients[i := clients[i].(attached := false)];
      keep, n := true, 0;
    }

    method HandleWinch(i: nat, pkt: Packet) returns (keep: bool, ghost n: nat)
      requires Serving(i, pkt, Some(Winch))
      modifies os`k
      ensures keep && n == 0 && View() == Answer(old(View()), i, pkt, n)
      ensures os.transients <= old(os.transients)
      ensures os.k == old(os.k).Resized(pkt.data)
    {
      os.SetWinsize(pkt.data);
      keep, n := true, 0;
    }

    /** Ctrl-L is typed only if the terminal is in raw mode. */
    method HandleRedraw(i: nat, pkt: Packet) returns (keep: bool, ghost n: nat)
      requires Serving(i, pkt, Some(Redraw))
      modifies os`k, os`pushed, os`redraws
      ensures keep && n <= Room(scrollback.View(), pkt) && View() == Answer(old(View()), i, pkt, n)
      ensures RedrawnFor(clients[i].fd, pkt, old(os.redraws)) && os.pushed == old(os.pushed)
      ensures os.transients <= old(os.transients)
      ensures os.k.sizes == old(os.k.sizes) + [pkt.data]
      ensures os.k.signals == old(os.k.signals) + (if pkt.len == REDRAW_WINCH then [SIGWINCH] else [])
    {
      n := 0;
      os.SetWinsize(pkt.data);
      if pkt.len == REDRAW_CTRL_L {
        var raw := os.IsRaw(clients[i].fd);
        if raw {
          ghost var taken := os.Type(CtrlL(clients[i].fd, [CTRL_L]));
          n := |taken.bytes|;
          assert taken == CtrlL(clients[i].fd, [CTRL_L][..n]);
        }
      } else if pkt.len == REDRAW_WINCH {
        os.Kill(SIGWINCH);
      }
      keep := true;
    }

    /** Asked to redraw by Ctrl-L, the terminal was found not to be raw, or it was typed. */
    ghost predicate RedrawnFor(fd: Fd, pkt: Packet, before: seq<Redrawn>)
      reads os
    {
      if pkt.len == REDRAW_CTRL_L then
        os.redraws == before + [NotRaw(fd)] || os.redraws == before + [Typed(CtrlL(fd, [12]))]
      else os.redraws == before
    }

    method HandleKill(i: nat, pkt: Packet) returns (keep: bool, ghost n: nat)
      requires Serving(i, pkt, Some(Kill))
      modifies os`k
      ensures keep && n == 0 && View() == Answer(old(View()), i, pkt, n)
      ensures os.transients <= old(os.transients)
      ensures os.k.signals == old(os.k.signals) + [if pkt.len != 0 then pkt.len else SIGTERM]
    {
      os.Kill(if pkt.len != 0 then pkt.len else SIGTERM);
      keep, n := true, 0;
    }

    /** The control connection itself is always dropped. */
    method HandleForceDetach(i: nat, ghost pkt: Packet) returns (keep: bool, ghost n: nat)
      requires Serving(i, pkt, Some(ForceDetach))
      modifies this`evictAttached
      ensures !keep && n == 0 && Dropped(View(), i) == Answer(old(View()), i, pkt, n)
      ensures evictAttached
    {
      evictAttached := true;
      keep, n := false, 0;
    }

    /** The reply lists every attached client in list order, as far as the
        requester's socket takes it; then the requester is dropped. */
    method HandleInfo(i: nat, cfd: Fd, ghost pkt: Packet) returns (keep: bool, ghost n: nat)
      requires Serving(i, pkt, Some(Info)) && clients[i].fd == cfd
      modifies os`k, os`transients, os`failures, os`attempts, os`told
      ensures !keep && n == 0 && Dropped(View(), i) == Answer(old(View()), i, pkt, n)
      ensures os.k.IsOpen(cfd) && os.transients <= old(os.transients) && os.failures >= old(os.failures)
      ensures Informed(old(os.told), os.told, clients,
                       os.transients == old(os.transients) && os.failures == old(os.failures))
    {
      ghost var k := os.k;
      ghost var whole, reply := WriteInfo(cfd);
      ClosedForgets(k, cfd, 0, reply);
      assert os.told[|old(os.told)|..] == reply;
      keep, n := false, 0;
    }

    method WriteInfo(cfd: Fd) returns (ghost whole: bool, ghost reply: seq<byte>)
      requires os.k.IsOpen(cfd)
      modifies os`k, os`transients, os`failures, os`attempts, os`told
      ensures os.k == old(os.k).Sent(cfd, reply) && os.told == old(os.told) + reply
      ensures CutFrom(reply, InfoParts(|Attached(clients)|, Attached(clients)))
      ensures whole ==> reply == InfoText(clients)
      ensures whole || os.transients < old(os.transients) || os.failures > old(os.failures)
      ensures os.transients <= old(os.transients) && os.failures >= old(os.failures)
    {
      ghost var k := os.k;
      var attached := Attached(clients);
      SentNothing(k, cfd);
      ghost var parts: seq<seq<byte>> := [];
      whole, reply := true, [];
      whole, reply, parts := WritePart(cfd, InfoHeader(|attached|), k, whole, reply, parts, old(os.told));
      for j := 0 to |attached|
        invariant os.k == k.Sent(cfd, reply) && k.IsOpen(cfd) && os.told == old(os.told) + reply
        invariant os.transients <= old(os.transients) && os.failures >= old(os.failures)
        invariant parts == InfoParts(|attached|, attached[..j]) && CutFrom(reply, parts)
        invariant whole ==> reply == Flatten(parts)
        invariant whole || os.transients < old(os.transients) || os.failures > old(os.failures)
      {
        assert attached[..j + 1][..j] == attached[..j];
        whole, reply, parts := WritePart(cfd, InfoLine(attached[j]), k, whole, reply, parts, old(os.told));
      }
      assert attached[..|attached|] == attached;
    }

    method WritePart(cfd: Fd, part: seq<byte>, ghost k: Kernel, ghost whole: bool, ghost reply: seq<byte>,
                     ghost parts: seq<seq<byte>>, ghost told: seq<byte>)
      returns (ghost whole': bool, ghost reply': seq<byte>, ghost parts': seq<seq<byte>>)
      requires k.IsOpen(cfd) && os.k == k.Sent(cfd, reply) && os.told == told + reply
      requires CutFrom(reply, parts) && (whole ==> reply == Flatten(parts))
      modifies os`k, os`transients, os`failures, os`attempts, os`told
      ensures os.k == k.Sent(cfd, reply') && os.told == told + reply' && parts' == parts + [part]
      ensures CutFrom(reply', parts') && (whole' ==> reply' == Flatten(parts'))
      ensures os.transients <= old(os.transients) && os.failures >= old(os.failures)
      ensures whole' || !whole || os.transients < old(os.transients) || os.failures > old(os.failures)
    {
      ghost var done := WriteBuf(os, cfd, part);
      SentTwice(k, cfd, reply, part[..done]);
      CutFromMore(reply, parts, part[..done], part);
      FlattenSnoc(parts, part);
      Regroup(told, reply, part[..done]);
      whole', reply', parts' := whole && done == |part|, reply + part[..done], parts + [part];
    }

    /** What a packet asks of the world outside has been done: pushed input offered
        to the terminal, a replay sent in full and a reply given, unless a read or
        write did not go smoothly. */
    ghost predicate Thorough(cfd: Fd, pkt: Packet, n: nat, cs: seq<Client>, pushed: seq<PtyInput>,
                             redraws: seq<Redrawn>, told: seq<byte>, smooth: bool)
      reads os, scrollback, scrollback.buf
    {
      && os.pushed == pushed + (if FromU8(pkt.msgType) == Some(Push) then Offer(cfd, pkt) else [])
      && (if FromU8(pkt.msgType) == Some(Redraw) then RedrawnFor(cfd, pkt, redraws) else os.redraws == redraws)
      && (FromU8(pkt.msgType) == Some(Attach) && smooth ==> n == Room(scrollback.View(), pkt))
      && (if FromU8(pkt.msgType) == Some(Info) then Informed(told, os.told, cs, smooth) else os.told == told)
    }

    /** Hand a packet to its handler; unknown types are ignored. */
    method Dispatch(i: nat, cfd: Fd, pkt: Packet) returns (keep: bool, ghost n: nat)
      requires Serving(i, pkt, FromU8(pkt.msgType)) && clients[i].fd == cfd
      modifies this`clients, this`evictAttached
      modifies os`k, os`transients, os`failures, os`attempts, os`told, os`pushed, os`redraws
      ensures n <= Room(scrollback.View(), pkt) && os.transients <= old(os.transients)
      ensures os.k.IsOpen(cfd) && |clients| == |old(clients)| && clients[i].fd == cfd
      ensures !keep ==> clients == old(clients)
      ensures keep ==> View() == Answer(old(View()), i, pkt, n)
      ensures !keep ==> Dropped(View(), i) == Answer(old(View()), i, pkt, n)
      ensures Thorough(cfd, pkt, n, old(clients), old(os.pushed), old(os.redraws), old(os.told),
                       os.transients == old(os.transients) && os.failures == old(os.failures))
      ensures os.failures >= old(os.failures)
      ensures keep <==> pkt.msgType != 6 && pkt.msgType != 7
    {
      match FromU8(pkt.msgType)
      case Some(Push) => keep, n := HandlePush(i, pkt);
      case Some(Attach) => keep, n := HandleAttach(i, cfd, pkt);
      case Some(Detach) => keep, n := HandleDetach(i, pkt);
      case Some(Winch) => keep, n := HandleWinch(i, pkt);
      case Some(Redraw) =>
        keep, n := HandleRedraw(i, pkt);
      case Some(Kill) => keep, n := HandleKill(i, pkt);
      case Some(ForceDetach) => keep, n := HandleForceDetach(i, pkt);
      case Some(Info) =>
        keep, n := HandleInfo(i, cfd, pkt);
      case None => keep, n := true, 0;
    }

    /** One client's turn: read a packet and act on it, or find the connection
        gone.  Every path that removes the client has closed its descriptor. */
    method ServeClient(i: nat) returns (kept: bool, ghost e: Event)
      requires Inv(View()) && i < |clients|
      modifies this`clients, this`evictAttached
      modifies os`k, os`transients, os`failures, os`attempts, os`told, os`pushed, os`redraws
      ensures Enabled(old(View()), e) && View() == Apply(old(View()), e)
      ensures e.Serve? && e.at == i && e.fd == old(clients)[i].fd
      ensures os.transients <= old(os.transients) && os.failures >= old(os.failures)
      ensures kept <==> |clients| == |old(clients)|
      ensures !kept ==> clients == SwapRemoved(old(clients), i)
      ensures Reasoned(|Inbox(old(os.k), e.fd)|, e, scrollback.View(),
                       os.transients == old(os.transients), os.failures == old(os.failures))
      ensures e.got.Msg? ==>
        Thorough(e.fd, e.got.pkt, e.n, old(clients), old(os.pushed), old(os.redraws), old(os.told),
                 os.transients == old(os.transients) && os.failures == old(os.failures))
      ensures !e.got.Msg? ==> os.pushed == old(os.pushed) && os.redraws == old(os.redraws) && os.told == old(os.told)
      ensures kept <==> e.got.Partial? || (e.got.Msg? && e.got.pkt.msgType != 6 && e.got.pkt.msgType != 7)
    {
      ghost var w := View();
      var cfd := clients[i].fd;
      assert cfd in Fds(clients);
      ghost var lost;
      var r;
      r, lost := ReadFrom(os, cfd);
      match r
      case Ok(pkt) => kept, e := ServePacket(i, cfd, pkt, w);
      case Err(error) => kept, e := GiveUpReading(i, cfd, error, lost, w);
    }

    /** No packet: the client is kept only if there was none yet. */
    method GiveUpReading(i: nat, cfd: Fd, error: ProtocolError, ghost lost: nat, ghost w: World)
      returns (kept: bool, ghost e: Event)
      requires i < |clients| && clients[i].fd == cfd && w.ring.Valid() && w.kernel.IsOpen(cfd)
      requires lost < PACKET_SIZE && lost <= |w.kernel.inbox[cfd]|
      requires View() == w.(kernel := w.kernel.Consumed(cfd, lost))
      modifies this`clients, os`k
      ensures Enabled(w, e) && View() == Apply(w, e)
      ensures e == Serve(cfd, i, if error.WouldBlock? then Partial(lost) else Gone, 0)
      ensures kept <==> error.WouldBlock?
      ensures clients == if kept then old(clients) else SwapRemoved(old(clients), i)
    {
      match error
      case WouldBlock =>
        kept, e := true, Serve(cfd, i, Partial(lost), 0);
      case _ =>
        ClosedForgets(w.kernel, cfd, lost, []);
        os.Close(cfd);
        clients := SwapRemoved(clients, i);
        kept, e := false, Serve(cfd, i, Gone, 0);
    }

    method ServePacket(i: nat, cfd: Fd, pkt: Packet, ghost w: World) returns (kept: bool, ghost e: Event)
      requires i < |clients| && clients[i].fd == cfd && w.ring.Valid()
      requires w.kernel.IsOpen(cfd) && Encode(pkt) <= w.kernel.inbox[cfd]
      requires View() == w.(kernel := w.kernel.Consumed(cfd, PACKET_SIZE))
      modifies this`clients, this`evictAttached
      modifies os`k, os`transients, os`failures, os`attempts, os`told, os`pushed, os`redraws
      ensures Enabled(w, e) && View() == Apply(w, e)
      ensures e.Serve? && e.at == i && e.fd == cfd && e.got == Msg(pkt)
      ensures os.transients <= old(os.transients) && os.failures >= old(os.failures)
      ensures kept <==> pkt.msgType != 6 && pkt.msgType != 7
      ensures Thorough(cfd, pkt, e.n, old(clients), old(os.pushed), old(os.redraws), old(os.told),
                       os.transients == old(os.transients) && os.failures == old(os.failures))
      ensures kept <==> |clients| == |old(clients)|
      ensures !kept ==> clients == SwapRemoved(old(clients), i)
    {
      ghost var n;
      kept, n := Dispatch(i, cfd, pkt);
      e := Serve(cfd, i, Msg(pkt), n);
      if !kept {
        os.Close(cfd);
        clients := SwapRemoved(clients, i);
      }
    }

    // ---- the batch ---------------------------------------------------------

    /** Every client present at the start whose descriptor is ready gets exactly
        one turn; nobody else gets any.  A removed client's place is taken by
        the last one, so the index moves on only when the client stays. */
    method HandleClientPackets(ready: set<Fd>) returns (ghost es: seq<Event>)
      requires Valid()
      modifies this`clients, this`evictAttached
      modifies os`k, os`transients, os`failures, os`attempts, os`told, os`pushed, os`redraws
      ensures Valid() && Reached(old(View()), es) && ServesOnly(es)
      ensures NoDup(ServedFds(es))
      ensures forall f :: f in ServedFds(es) <==> f in ready && f in Fds(old(clients))
      ensures AllComplete(old(os.k), scrollback.View(), es,
                          os.transients == old(os.transients), os.failures == old(os.failures))
      ensures os.pushed == old(os.pushed) + OffersOf(es) && |os.redraws| == |old(os.redraws)| + RedrawsIn(es)
      ensures old(os.told) <= os.told
      ensures os.transients == old(os.transients) && os.failures == old(os.failures) ==>
        os.told == old(os.told) + RepliesOf(old(View()), es)
      ensures os.transients <= old(os.transients) && os.failures >= old(os.failures)
    {
      ghost var w := View();
      BatchStarts(w, ready);
      es := [];
      var i: nat := 0;
      while i < |clients|
        invariant HalfWay(w.clients, ready, w, es, i,
                          os.transients == old(os.transients), os.failures == old(os.failures))
        invariant After(w, es) == View()
        invariant os.transients <= old(os.transients) && os.failures >= old(os.failures)
        invariant os.pushed == old(os.pushed) + OffersOf(es) && |os.redraws| == |old(os.redraws)| + RedrawsIn(es)
        invariant old(os.told) <= os.told
        invariant os.transients == old(os.transients) && os.failures == old(os.failures) ==>
          os.told == old(os.told) + RepliesOf(w, es)
        decreases |clients| - i
      {
        if clients[i].fd !in ready {
          BatchSkips(w.clients, ready, w, es, i, os.transients == old(os.transients), os.failures == old(os.failures));
          i := i + 1;
        } else {
          ghost var e;
          i, e := TakeTurn(i, w, es, ready, old(os.transients), old(os.failures));
          OffersSnoc(old(os.pushed), es, e);
          RepliesSnoc(old(os.told), w, es, e);
          es := es + [e];
        }
      }
      assert i == |After(w, es).clients|;
      BatchEnds(w, ready, es, os.transients == old(os.transients), os.failures == old(os.failures));
    }

    /** A client's turn as the batch sees it. */
    method ServeTurn(i: nat) returns (kept: bool, ghost e: Event)
      requires Inv(View()) && i < |clients|
      modifies this`clients, this`evictAttached
      modifies os`k, os`transients, os`failures, os`attempts, os`told, os`pushed, os`redraws
      ensures e.Serve? && e.at == i && e.fd == old(clients)[i].fd
      ensures Enabled(old(View()), e) && View() == Apply(old(View()), e)
      ensures Reasoned(|Inbox(old(os.k), e.fd)|, e, old(View()).ring,
                       os.transients == old(os.transients), os.failures == old(os.failures))
      ensures os.pushed == old(os.pushed) + OfferOf(e) && |os.redraws| == |old(os.redraws)| + RedrawsOf(e)
      ensures old(os.told) <= os.told
      ensures os.transients == old(os.transients) && os.failures == old(os.failures) ==>
        os.told == old(os.told) + ReplyTo(old(clients), e)
      ensures kept <==> !Drops(e)
      ensures os.transients <= old(os.transients) && os.failures >= old(os.failures)
    {
      kept, e := ServeClient(i);
      DropsByCode(e);
    }

    /** One turn of the walk; the batch began with `t` transients to come and `f` failures. */
    method TakeTurn(i: nat, ghost w: World, ghost es: seq<Event>, ghost ready: set<Fd>, ghost t: nat, ghost f: nat)
      returns (next: nat, ghost e: Event)
      requires Inv(w) && HalfWay(w.clients, ready, w, es, i, os.transients == t, os.failures == f)
      requires After(w, es) == View() && os.transients <= t && os.failures >= f
      requires i < |clients| && clients[i].fd in ready
      modifies this`clients, this`evictAttached
      modifies os`k, os`transients, os`failures, os`attempts, os`told, os`pushed, os`redraws
      ensures HalfWay(w.clients, ready, w, es + [e], next, os.transients == t, os.failures == f)
      ensures After(w, es + [e]) == View()
      ensures os.pushed == old(os.pushed) + OfferOf(e) && |os.redraws| == |old(os.redraws)| + RedrawsOf(e)
      ensures old(os.told) <= os.told
      ensures os.transients == old(os.transients) && os.failures == old(os.failures) ==>
        os.told == old(os.told) + ReplyTo(old(clients), e)
      ensures |clients| - next < |old(clients)| - i
      ensures os.transients <= old(os.transients) && os.failures >= old(os.failures)
    {
      RunKeeps(w, es);
      var kept;
      kept, e := ServeTurn(i);
      next := if kept then i + 1 else i;
      assert Enabled(After(w, es), e) && next == if Drops(e) then e.at else e.at + 1;
      assert Reasoned(|Inbox(After(w, es).kernel, e.fd)|, e, After(w, es).ring,
                      os.transients == old(os.transients), os.failures == old(os.failures));
      BatchGoesOn(w.clients, ready, w, es, old(os.transients) == t, old(os.failures) == f,
                  e, os.transients == old(os.transients), os.failures == old(os.failures),
                  next, os.transients == t, os.failures == f);
      assert After(w, es + [e]) == View();
    }

    // ---- the deferred force-detach -----------------------------------------

    method EvictIfAsked() returns (ghost es: seq<Event>)
      requires Valid()
      modifies this`clients, this`evictAttached, os`k
      ensures Valid() && Reached(old(View()), es) && !evictAttached
      ensures es == if old(evictAttached) then [Evict] else []
      ensures Asked() == old(Asked())
    {
      if !evictAttached {
        return [];
      }
      ghost var w := View();
      evictAttached := false;
      assert forall c <- clients :: c.fd in Fds(clients);
      CloseAttached();
      assert View() == Apply(w, Evict);
      OneStep(w, Evict);
      return [Evict];
    }

    /** Vec::retain with a closing predicate: attached clients are closed and
        forgotten, the others stay in order. */
    method CloseAttached()
      requires AllOpen(os.k, clients)
      modifies this`clients, os`k
      ensures clients == Without(old(clients), AttachedFds(old(clients)))
      ensures os.k == ClosedAll(old(os.k), AttachedFds(old(clients)))
      ensures os.transients == old(os.transients)
    {
      ghost var k, gone := os.k, AttachedFds(clients);
      var kept: seq<Client> := [];
      ClosedAllOfNone(k);
      for j := 0 to |clients|
        invariant clients == old(clients)
        invariant kept == Without(clients[..j], gone)
        invariant os.k == ClosedAll(k, AttachedFds(clients[..j]))
        invariant os.transients == old(os.transients)
      {
        var c := clients[j];
        AttachedByFd(clients, j);
        AttachedPrefix(clients, j);
        assert clients[..j + 1][..j] == clients[..j];
        if c.attached {
          CloseOneMore(k, AttachedFds(clients[..j]), c.fd);
          os.Close(c.fd);
        } else {
          kept := kept + [c];
        }
      }
      assert clients[..|clients|] == clients;
      clients := kept;
    }

    // ---- replay ------------------------------------------------------------

    /** Every client with a pending replay and a writable socket gets its turn, in
        list order, and nobody else does. */
    method DrainReplay(writable: set<Fd>) returns (ghost es: seq<Event>)
      requires Valid()
      modifies this`clients, os`k, os`transients, os`failures, os`attempts
      ensures Valid() && Reached(old(View()), es) && DrainsOnly(es)
      ensures DrainedFds(es) == PendingFds(old(clients), writable)
      ensures os.transients == old(os.transients) && os.failures == old(os.failures) ==>
        Finished(old(clients), writable, clients, |clients|)
      ensures evictAttached == old(evictAttached) && os.transients <= old(os.transients)
      ensures os.failures >= old(os.failures)
    {
      ghost var w, start := View(), clients;
      es := [];
      for i := 0 to |clients|
        invariant Draining(start, writable, es, clients, i)
        invariant Reached(w, es)
        invariant os.k.sent.Keys <= old(os.k.sent.Keys)
        invariant os.transients <= old(os.transients) && os.failures >= old(os.failures)
        invariant os.transients == old(os.transients) && os.failures == old(os.failures) ==>
          Finished(start, writable, clients, i)
      {
        es := DrainTurn(i, writable, w, es, start);
      }
      DrainingDone(start, writable, es, clients);
      RunKeeps(w, es);
    }

    method DrainTurn(i: nat, writable: set<Fd>, ghost w: World, ghost es: seq<Event>, ghost start: seq<Client>)
      returns (ghost es': seq<Event>)
      requires Inv(w) && Reached(w, es) && Draining(start, writable, es, clients, i) && i < |clients|
      modifies this`clients, os`k, os`transients, os`failures, os`attempts
      ensures Reached(w, es') && |clients| == |old(clients)|
      ensures Draining(start, writable, es', clients, i + 1)
      ensures os.k.sent.Keys <= old(os.k.sent.Keys)
      ensures clients == old(clients)[i := clients[i]]
      ensures os.transients <= old(os.transients) && os.failures >= old(os.failures)
      ensures os.transients == old(os.transients) && os.failures == old(os.failures)
                && old(clients)[i].replayRemaining > 0 && old(clients)[i].fd in writable
              ==> clients[i].replayRemaining == 0 && clients[i].attached
    {
      ghost var cs := clients;
      if clients[i].replayRemaining > 0 && clients[i].fd in writable {
        RunKeeps(w, es);
        ghost var e := DrainClient(i);
        es' := es + [e];
        RunGrows(w, es, e);
        DrainGoesOn(start, writable, es, cs, i, e, clients[i]);
      } else {
        es' := es;
        DrainSkips(start, writable, es, cs, i);
      }
    }

    method DrainClient(i: nat) returns (ghost e: Event)
      requires Inv(View()) && i < |clients| && clients[i].replayRemaining > 0
      modifies this`clients, os`k, os`transients, os`failures, os`attempts
      ensures e.Drain? && e.fd == old(clients)[i].fd
      ensures Enabled(old(View()), e) && View() == Apply(old(View()), e)
      ensures |clients| == |old(clients)| && clients == old(clients)[i := clients[i]]
      ensures os.transients <= old(os.transients) && os.failures >= old(os.failures)
      ensures clients[i].replayRemaining == 0 ==> clients[i].attached
      ensures clients[i].replayRemaining == 0 || os.transients < old(os.transients) || os.failures > old(os.failures)
    {
      ghost var w := View();
      var c := clients[i];
      assert c in clients && c.fd in Fds(clients);
      var rs := new ReplayState(c.replayHead, c.replayRemaining);
      var ok := rs.Drain(os, c.fd, scrollback);
      clients := clients[i := c.(replayHead := rs.head, replayRemaining := rs.remaining)];
      if ok && rs.remaining == 0 {
        clients := clients[i := clients[i].(attached := true)];
      }
      e := DaemonModel.Drain(c.fd, i, c.replayRemaining - rs.remaining);
      assert clients[i] == DrainAnswer(c, e.n);
      assert clients == old(clients)[i := DrainAnswer(c, e.n)];
      DrainIsStep(w, i, e.n, View());
    }

    // ---- terminal output ---------------------------------------------------

    /** Try to hand the whole chunk to each attached client that is writable. */
    method WriteRound(data: seq<byte>, writable: set<Fd>)
      returns (anyWritten: bool, badFds: seq<Fd>, ghost wrote: set<Fd>, ghost calls: seq<Attempt>)
      requires data != [] && AllOpen(os.k, clients)
      modifies os`k, os`transients, os`failures, os`attempts
      ensures os.attempts == old(os.attempts) + calls
      ensures Round(old(os.k), clients, data, writable, calls, os.k, wrote, badFds)
      ensures anyWritten <==> wrote != {}
      ensures os.transients <= old(os.transients)
      ensures calls != [] && wrote == {} && badFds == [] ==> os.transients < old(os.transients)
      ensures os.failures >= old(os.failures)
    {
      ghost var k := os.k;
      anyWritten, badFds, wrote, calls := false, [], {}, [];
      RoundStarts(k, data, writable);
      for j := 0 to |clients|
        invariant os.attempts == old(os.attempts) + calls
        invariant Round(k, clients[..j], data, writable, calls, os.k, wrote, badFds)
        invariant anyWritten <==> wrote != {}
        invariant os.transients <= old(os.transients) && os.failures >= old(os.failures)
        invariant calls != [] && wrote == {} && badFds == [] ==> os.transients < old(os.transients)
      {
        var c := clients[j];
        PrefixGrows(clients, j);
        AttachedPrefix(clients, j);
        if c.attached && c.fd in writable {
          var r;
          ghost var more;
          r, wrote, more := WriteOne(data, writable, c, k, clients[..j], wrote, badFds, calls);
          Regroup(old(os.attempts), calls, [Attempt(c.fd, data, r)]);
          calls := more;
          if r == Did(|data|) {
            anyWritten := true;
          } else if !r.Again? {
            badFds := badFds + [c.fd];
          }
        } else {
          RoundSkips(k, clients[..j], data, writable, calls, os.k, wrote, badFds, c);
        }
      }
      assert clients[..|clients|] == clients;
    }

    /** The write to one target, and what it does to the round. */
    method WriteOne(data: seq<byte>, writable: set<Fd>, c: Client, ghost k: Kernel, ghost cs: seq<Client>,
                    ghost wrote: set<Fd>, ghost badFds: seq<Fd>, ghost calls: seq<Attempt>)
      returns (r: IoResult, ghost wrote': set<Fd>, ghost calls': seq<Attempt>)
      requires data != [] && Round(k, cs, data, writable, calls, os.k, wrote, badFds)
      requires c.attached && c.fd in writable && c.fd !in AttachedFds(cs) && os.k.IsOpen(c.fd)
      modifies os`k, os`transients, os`failures, os`attempts
      ensures var a := Attempt(c.fd, data, r);
        && os.attempts == old(os.attempts) + [a] && calls' == calls + [a]
        && wrote' == (if a.Whole() then wrote + {c.fd} else wrote)
        && Round(k, cs + [c], data, writable, calls', os.k, wrote', if a.Broken() then badFds + [c.fd] else badFds)
      ensures os.transients <= old(os.transients)
      ensures r.Again? ==> os.transients < old(os.transients)
      ensures os.failures >= old(os.failures)
    {
      ghost var was := os.k;
      r := os.Write(c.fd, data);
      ghost var a := Attempt(c.fd, data, r);
      wrote', calls' := if a.Whole() then wrote + {c.fd} else wrote, calls + [a];
      if a.Whole() {
        assert data[..|data|] == data;
        RoundWrites(k, cs, data, writable, calls, was, wrote, badFds, c, a);
      } else if r.Again? {
        RoundPasses(k, cs, data, writable, calls, was, wrote, badFds, c, a);
      } else {
        SentNothing(was, c.fd);
        RoundBreaks(k, cs, data, writable, calls, was, wrote, badFds, c, a, if r.Did? then data[..r.n] else []);
      }
    }

    /** Close the clients whose write failed or was cut short, and forget them. */
    method CloseBad(badFds: seq<Fd>)
      requires NoDup(badFds) && forall f <- badFds :: os.k.IsOpen(f)
      modifies this`clients, os`k
      ensures clients == Without(old(clients), SetOf(badFds))
      ensures os.k == ClosedAll(old(os.k), SetOf(badFds))
      ensures os.transients == old(os.transients)
    {
      ghost var cs, k := clients, os.k;
      WithoutNone(cs);
      ClosedAllOfNone(k);
      assert SetOf(badFds[..0]) == {};
      assert forall j :: 0 <= j < |badFds| ==> badFds[j] in badFds;
      for j := 0 to |badFds|
        invariant clients == Without(cs, SetOf(badFds[..j]))
        invariant os.k == ClosedAll(k, SetOf(badFds[..j]))
        invariant os.transients == old(os.transients)
      {
        var fd := badFds[j];
        assert badFds[..j + 1] == badFds[..j] + [fd];
        SetOfSnoc(badFds[..j], fd);
        CloseOneMore(k, SetOf(badFds[..j]), fd);
        WithoutTwice(cs, SetOf(badFds[..j]), {fd});
        os.Close(fd);
        clients := Without(clients, {fd});
      }
      assert badFds[..|badFds|] == badFds;
    }

    /** One round over the writable clients: nobody is left with part of a chunk. */
    method FanRound(data: seq<byte>, writable: set<Fd>)
      returns (anyWritten: bool, ghost wrote: set<Fd>, ghost bad: set<Fd>, ghost calls: seq<Attempt>)
      requires data != [] && AllOpen(os.k, clients)
      modifies this`clients, os`k, os`transients, os`failures, os`attempts
      ensures wrote !! bad && wrote + bad <= AttachedFds(old(clients))
      ensures clients == Without(old(clients), bad)
      ensures os.k == FannedOut(old(os.k), data, wrote, bad)
      ensures anyWritten <==> wrote != {}
      ensures os.attempts == old(os.attempts) + calls && AskedFds(calls) == TargetFds(old(clients), writable)
      ensures wrote == WholeFds(calls) && bad == BrokenFds(calls)
      ensures os.transients <= old(os.transients)
      ensures AttachedFds(old(clients)) * writable != {} && wrote == {} ==>
        |clients| + os.transients < |old(clients)| + old(os.transients)
      ensures os.failures >= old(os.failures)
      ensures AllOf(calls, data)
    {
      ghost var k := os.k;
      var badFds;
      anyWritten, badFds, wrote, calls := WriteRound(data, writable);
      bad := SetOf(badFds);
      AfterRound(k, os.k, clients, data, wrote, badFds);
      if AttachedFds(clients) * writable != {} {
        TargetsAreAsked(clients, writable, calls);
      }
      CloseBad(badFds);
    }

    method AttachedSet() returns (fds: set<Fd>)
      ensures fds == AttachedFds(clients)
    {
      fds := {};
      for j := 0 to |clients|
        invariant fds == AttachedFds(clients[..j])
      {
        assert clients[..j + 1] == clients[..j] + [clients[j]];
        if clients[j].attached {
          fds := fds + {clients[j].fd};
        }
      }
      assert clients[..|clients|] == clients;
    }

    /** One pass of the fan-out loop: a reason to stop, or another try.  Every
        attached client found writable is written to before anything else decides. */
    method TryFanOut(data: seq<byte>, targets: set<Fd>, ghost k: Kernel, ghost cs: seq<Client>, ghost lost: set<Fd>)
      returns (stop: Option<Stop>, ghost wrote: set<Fd>, ghost bad: set<Fd>, ghost s: Selected,
               ghost calls: seq<Attempt>)
      requires data != [] && AllOpen(k, cs) && Losing(k, cs, os.k, clients, lost) && targets == AttachedFds(clients)
      modifies this`clients, os`k, os`transients, os`failures, os`attempts, os`selects
      ensures os.selects == old(os.selects) + [s] && os.attempts == old(os.attempts) + calls
      ensures s.readers == {os.listener} && s.writers == targets && CalledFds(calls) == s.canWrite
      ensures AskedFds(calls) == if s.result.Ready? then TargetFds(old(clients), s.canWrite) else []
      ensures wrote == WholeFds(calls) && bad == lost + BrokenFds(calls)
      ensures stop == Verdict(s, os.listener, wrote, AttachedFds(clients))
      ensures stop.None? ==> Losing(k, cs, os.k, clients, bad) && wrote == {}
      ensures stop.None? ==> |clients| + os.transients < |old(clients)| + old(os.transients)
      ensures wrote !! bad && wrote + bad <= AttachedFds(cs)
      ensures clients == Without(cs, bad) && os.k == FannedOut(k, data, wrote, bad)
      ensures os.transients <= old(os.transients)
      ensures os.failures >= old(os.failures)
      ensures AllOf(calls, data)
    {
      LosingKeepsOpen(k, cs, os.k, clients, lost);
      LosingIsFanOut(k, cs, os.k, clients, lost, data);
      var sel, canRead, canWrite := os.Select({os.listener}, targets);
      s, calls, wrote, bad, stop := Selected({os.listener}, targets, sel, canRead, canWrite), [], {}, lost, None;
      match sel
      case SelectInterrupted =>
      case SelectFailed => stop := Some(SelectBroken);
      case Ready =>
        stop, wrote, bad, calls := WriteOnce(data, canRead, canWrite, k, cs, lost);
    }

    /** The part of a pass after a successful select. */
    method WriteOnce(data: seq<byte>, canRead: set<Fd>, canWrite: set<Fd>, ghost k: Kernel, ghost cs: seq<Client>,
                     ghost lost: set<Fd>)
      returns (stop: Option<Stop>, ghost wrote: set<Fd>, ghost bad: set<Fd>, ghost calls: seq<Attempt>)
      requires data != [] && AllOpen(os.k, clients) && Losing(k, cs, os.k, clients, lost)
      requires canRead <= {os.listener} && canWrite <= AttachedFds(clients) && canRead + canWrite != {}
      modifies this`clients, os`k, os`transients, os`failures, os`attempts
      ensures os.attempts == old(os.attempts) + calls && CalledFds(calls) == canWrite
      ensures AskedFds(calls) == TargetFds(old(clients), canWrite)
      ensures wrote == WholeFds(calls) && bad == lost + BrokenFds(calls)
      ensures stop == if wrote != {} then Some(SomeoneWritten)
                      else if os.listener in canRead then Some(NewConnection)
                      else if AttachedFds(clients) == {} then Some(NobodyAttached)
                      else None
      ensures stop.None? ==> Losing(k, cs, os.k, clients, bad)
      ensures stop.None? ==> |clients| + os.transients < |old(clients)| + old(os.transients)
      ensures wrote !! bad && wrote + bad <= AttachedFds(cs)
      ensures clients == Without(cs, bad) && os.k == FannedOut(k, data, wrote, bad)
      ensures os.transients <= old(os.transients)
      ensures os.failures >= old(os.failures)
      ensures AllOf(calls, data)
    {
      ghost var k1, cs1, more := os.k, clients, {};
      SomeTargetReady(os.listener, canRead, AttachedFds(clients), canWrite);
      var anyWritten;
      anyWritten, wrote, more, calls := FanRound(data, canWrite);
      LosingThenRound(k, cs, k1, cs1, lost, data, wrote, more);
      WritableAreCalled(cs1, canWrite, calls);
      bad := lost + more;
      if anyWritten {
        stop := Some(SomeoneWritten);
      } else if os.listener in canRead {
        stop := Some(NewConnection);
      } else {
        var left := AttachedSet();
        stop := if left == {} then Some(NobodyAttached) else None;
      }
    }

    /** Fan one chunk out.  Whatever the kernel answers, a client still listed on
        return was attached and got the chunk exactly once, or got nothing; gone are
        exactly those to whom some write was answered by neither the whole chunk
        nor EAGAIN; the others keep their order.  No client found writable by any
        of the selects was passed over, and the last one says why it stopped. */
    method SendToClients(data: seq<byte>)
      returns (ghost wrote: set<Fd>, ghost bad: set<Fd>, ghost why: Stop,
               ghost passes: seq<Selected>, ghost calls: seq<Attempt>)
      requires data != [] && AllOpen(os.k, clients)
      modifies this`clients, os`k, os`transients, os`failures, os`attempts, os`selects
      ensures os.attempts == old(os.attempts) + calls && os.selects == old(os.selects) + passes
      ensures Fanning(old(os.k), old(clients), data, os.listener, os.k, clients, passes, calls, wrote, bad)
      ensures Answered(passes, os.listener, wrote, AttachedFds(clients), AttachedFds(old(clients)), Some(why))
      ensures LastDecides(passes, os.listener, calls)
      ensures os.transients <= old(os.transients)
      ensures os.failures >= old(os.failures)
    {
      ghost var cs, k := clients, os.k;
      wrote, bad, passes, calls := {}, {}, [], [];
      FanningStarts(k, cs, data, os.listener);
      var stop := None;
      var targets := AttachedSet();
      if targets == {} {
        stop := Some(NobodyAttached);
      }
      while stop.None?
        invariant Fanning(k, cs, data, os.listener, os.k, clients, passes, calls, wrote, bad)
        invariant os.attempts == old(os.attempts) + calls && os.selects == old(os.selects) + passes
        invariant stop.None? ==> Losing(k, cs, os.k, clients, bad) && wrote == {} && AttachedFds(cs) != {}
        invariant stop.None? ==> forall s <- passes :: Undecided(s, os.listener)
        invariant stop.Some? ==> Answered(passes, os.listener, wrote, AttachedFds(clients), AttachedFds(cs), stop)
        invariant stop.Some? ==> LastDecides(passes, os.listener, calls)
        invariant os.transients <= old(os.transients) && os.failures >= old(os.failures)
        decreases stop.None?, |clients| + os.transients
      {
        stop, wrote, bad, passes, calls := TryAgain(data, k, cs, bad, passes, calls, old(os.selects), old(os.attempts));
      }
      why := stop.value;
    }

    /** One more pass on top of those made so far. */
    method TryAgain(data: seq<byte>, ghost k: Kernel, ghost cs: seq<Client>, ghost lost: set<Fd>,
                    ghost passes: seq<Selected>, ghost calls: seq<Attempt>,
                    ghost selects0: seq<Selected>, ghost attempts0: seq<Attempt>)
      returns (stop: Option<Stop>, ghost wrote: set<Fd>, ghost bad: set<Fd>,
               ghost passes': seq<Selected>, ghost calls': seq<Attempt>)
      requires data != [] && AllOpen(k, cs) && Losing(k, cs, os.k, clients, lost) && AttachedFds(cs) != {}
      requires Fanning(k, cs, data, os.listener, os.k, clients, passes, calls, {}, lost)
      requires os.attempts == attempts0 + calls && os.selects == selects0 + passes
      requires forall s <- passes :: Undecided(s, os.listener)
      modifies this`clients, os`k, os`transients, os`failures, os`attempts, os`selects
      ensures Fanning(k, cs, data, os.listener, os.k, clients, passes', calls', wrote, bad)
      ensures os.attempts == attempts0 + calls' && os.selects == selects0 + passes'
      ensures stop.None? ==> Losing(k, cs, os.k, clients, bad) && wrote == {}
      ensures stop.None? ==> |clients| + os.transients < |old(clients)| + old(os.transients)
      ensures stop.None? ==> forall s <- passes' :: Undecided(s, os.listener)
      ensures stop.Some? ==> Answered(passes', os.listener, wrote, AttachedFds(clients), AttachedFds(cs), stop)
      ensures LastDecides(passes', os.listener, calls')
      ensures os.transients <= old(os.transients)
      ensures os.failures >= old(os.failures)
    {
      var targets := AttachedSet();
      AttachedOfRest(cs, lost);
      ghost var s, more;
      stop, wrote, bad, s, more := TryFanOut(data, targets, k, cs, lost);
      OnePassMore(passes, s, os.listener, AttachedFds(cs), lost, bad, calls, more);
      OneDecides(passes, s, os.listener, calls, more);
      CallsSplit(calls, more);
      Regroup(attempts0, calls, more);
      Regroup(selects0, passes, [s]);
      passes', calls' := passes + [s], calls + more;
    }

    /** If there is terminal output, publish one chunk.  True when the child is gone. */
    method HandlePtyOutput(ready: set<Fd>)
      returns (childGone: bool, ghost es: seq<Event>, ghost rs: seq<PtyRead>, ghost fan: seq<Selected>,
               ghost calls: seq<Attempt>)
      requires Valid()
      modifies this`clients, scrollback, scrollback.buf, LogFile()
      modifies os`k, os`transients, os`failures, os`attempts, os`selects, os`ptyReads
      ensures Valid() && Reached(old(View()), es) && OutputsOnly(es)
      ensures TracedOutput(old(Asked()), Asked(), rs, fan, calls)
      ensures ReadOk(es, rs, os.pty in ready) && FanOk(old(clients), es, fan, calls, os.listener)
      ensures childGone <==> rs != [] && Ends(rs[0])
      ensures log == old(log) && evictAttached == old(evictAttached)
    {
      es, rs, fan, calls := [], [], [], [];
      childGone := false;
      if os.pty in ready {
        ghost var r;
        childGone, es, r, fan, calls := ReadOutput();
        rs := [r];
      }
    }

    /** Read one chunk, store it, log it, fan it out; end of file or an error says
        that the child is gone. */
    method ReadOutput()
      returns (childGone: bool, ghost es: seq<Event>, ghost r: PtyRead, ghost fan: seq<Selected>,
               ghost calls: seq<Attempt>)
      requires Valid()
      modifies this`clients, scrollback, scrollback.buf, LogFile()
      modifies os`k, os`transients, os`failures, os`attempts, os`selects, os`ptyReads
      ensures Valid() && Reached(old(View()), es) && OutputsOnly(es)
      ensures TracedOutput(old(Asked()), Asked(), [r], fan, calls)
      ensures r.max == 4096 && (es != [] <==> Shows(r)) && FanOk(old(clients), es, fan, calls, os.listener)
      ensures childGone <==> Ends(r)
      ensures log == old(log) && evictAttached == old(evictAttached)
    {
      ghost var w := View();
      es, fan, calls := [], [], [];
      childGone := false;
      var answer, data := os.ReadPty(BUFSIZE);
      r := PtyRead(BUFSIZE, answer);
      ghost var b := Asked();
      FanTraced(b, b, [], []);
      match answer
      case Did(n) =>
        if n > 0 {
          ghost var e;
          e, fan, calls := Publish(data, w);
          es := [e];
        } else {
          childGone := true;
        }
      case Interrupted =>
      case Again =>
      case Failed(_) => childGone := true;
      OutputTraced(old(Asked()), b, Asked(), r, fan, calls);
    }

    /** A chunk has been read: `w` is the state just before. */
    ghost predicate ChunkRead(w: World, data: seq<byte>)
      reads this, os, scrollback, scrollback.buf, LogFile()
    {
      && 0 < |data| <= BUFSIZE
      && Inv(w) && View() == w.(kernel := w.kernel.Shown(data))
      && (log != null ==> log.file.AtEnd() && log.file != appLog.file)
    }

    method Publish(data: seq<byte>, ghost w: World)
      returns (ghost e: Event, ghost fan: seq<Selected>, ghost calls: seq<Attempt>)
      requires ChunkRead(w, data) && os.listener !in os.k.sent && os.pty !in os.k.sent
      modifies this`clients, scrollback, scrollback.buf, LogFile()
      modifies os`k, os`transients, os`failures, os`attempts, os`selects
      ensures Valid() && Reached(w, [e]) && e.Output?
      ensures TracedOutput(old(Asked()), Asked(), [], fan, calls)
      ensures FanOk(old(clients), [e], fan, calls, os.listener)
      ensures log == old(log) && evictAttached == old(evictAttached)
    {
      e, fan, calls := Emit(data, w);
      FanTraced(old(Asked()), Asked(), fan, calls);
      OneStep(w, e);
    }

    /** Into the ring, and into the log if there is one. */
    method Store(data: seq<byte>)
      requires scrollback.View().Valid() && (log != null ==> log.file.AtEnd())
      modifies scrollback, scrollback.buf, LogFile()
      ensures View() == old(View()).(ring := Appended(old(View()).ring, data), log := Logged(old(View()).log, data))
      ensures Asked() == old(Asked()) && (log != null ==> log.file.AtEnd())
    {
      scrollback.Append(data);
      if log != null {
        log.Write(data);
      }
    }

    /** ... and out to the clients. */
    method FanChunk(data: seq<byte>)
      returns (ghost e: Event, ghost fan: seq<Selected>, ghost calls: seq<Attempt>)
      requires data != [] && AllOpen(os.k, clients)
      modifies this`clients, os`k, os`transients, os`failures, os`attempts, os`selects
      ensures e.Output? && e.data == data && e.wrote !! e.bad && e.wrote + e.bad <= AttachedFds(old(clients))
      ensures View() == old(View()).(clients := Without(old(clients), e.bad),
                                     kernel := FannedOut(old(os.k), data, e.wrote, e.bad))
      ensures FanOk(old(clients), [e], fan, calls, os.listener)
      ensures Asked() == old(Asked()).(selects := old(os.selects) + fan, writes := old(os.attempts) + calls,
                                       transients := os.transients, failures := os.failures)
      ensures Since(old(Asked()), Asked())
      ensures log != null ==> (log.file.AtEnd() <==> old(log.file.AtEnd()))
    {
      ghost var wrote, bad, why;
      wrote, bad, why, fan, calls := SendToClients(data);
      AttachedOfRest(old(clients), bad);
      e := Output(data, wrote, bad);
    }

    method Emit(data: seq<byte>, ghost w: World)
      returns (ghost e: Event, ghost fan: seq<Selected>, ghost calls: seq<Attempt>)
      requires ChunkRead(w, data)
      modifies this`clients, scrollback, scrollback.buf, LogFile()
      modifies os`k, os`transients, os`failures, os`attempts, os`selects
      ensures e.Output? && Enabled(w, e) && View() == Apply(w, e)
      ensures Asked() == old(Asked()).(selects := old(os.selects) + fan, writes := old(os.attempts) + calls,
                                       transients := os.transients, failures := os.failures)
      ensures FanOk(old(clients), [e], fan, calls, os.listener)
      ensures log == old(log) && (log != null ==> log.file.AtEnd())
      ensures evictAttached == old(evictAttached)
      ensures Since(old(Asked()), Asked())
    {
      assert forall c <- clients :: c.fd in Fds(clients);
      Store(data);
      e, fan, calls := FanChunk(data);
    }

    // ---- the loop ----------------------------------------------------------

    /** Watch the listener, the terminal and every client; watch for writability
        exactly the clients with a pending replay. */
    method BuildFdSets() returns (readers: set<Fd>, writers: set<Fd>)
      modifies this`hasAttached
      ensures readers == {os.listener, os.pty} + Fds(clients)
      ensures writers == set c | c in clients && c.replayRemaining > 0 :: c.fd
      ensures hasAttached <==> AttachedFds(clients) != {}
    {
      readers, writers := {os.listener, os.pty}, {};
      var newHas := false;
      for j := 0 to |clients|
        invariant readers == {os.listener, os.pty} + Fds(clients[..j])
        invariant writers == set c | c in clients[..j] && c.replayRemaining > 0 :: c.fd
        invariant newHas <==> AttachedFds(clients[..j]) != {}
      {
        var c := clients[j];
        assert clients[..j + 1] == clients[..j] + [c];
        readers := readers + {c.fd};
        if c.attached {
          assert c.fd in AttachedFds(clients[..j + 1]);
          newHas := true;
        }
        if c.replayRemaining > 0 {
          writers := writers + {c.fd};
        }
      }
      assert clients[..|clients|] == clients;
      hasAttached := newHas;
    }

    /** Wait for something to do.  Only open descriptors are ever waited on. */
    method Wait() returns (sel: SelectResult, canRead: set<Fd>, canWrite: set<Fd>, ghost s: Selected)
      requires Inv(View())
      modifies this`hasAttached, os`transients, os`selects
      ensures View() == old(View()) && os.transients <= old(os.transients)
      ensures os.selects == old(os.selects) + [s] && s == Selected(s.readers, s.writers, sel, canRead, canWrite)
      ensures s.readers == {os.listener, os.pty} + Fds(clients) && s.writers == PendingSet(clients)
      ensures !sel.Ready? ==> canRead == {}
      ensures hasAttached <==> AttachedFds(clients) != {}
    {
      var readers, writers := BuildFdSets();
      WatchedAreOpen(View(), readers, writers, os.listener, os.pty);
      sel, canRead, canWrite := os.Select(readers, writers);
      s := Selected(readers, writers, sel, canRead, canWrite);
    }

    /** One pass of the event loop: a select, and the turn that answers it. */
    method Iterate() returns (over: bool, ghost t: Turn, ghost p: Pass)
      requires Valid() && !evictAttached
      modifies this, os, scrollback, scrollback.buf, LogFile(), appLog.file
      ensures Valid() && !evictAttached && log == old(log)
      ensures Passed(old(View()), View(), t, p, os.listener, os.pty)
      ensures Traced(old(Asked()), Asked(), t, p)
      ensures over <==> PassEnds(p)
    {
      ghost var w, a := View(), Asked();
      var sel, canRead, canWrite;
      ghost var s;
      sel, canRead, canWrite, s := Wait();
      if sel.Ready? {
        over, t, p := Work(canRead, canWrite, s, a);
      } else {
        t, p := IDLE, Pass(s, [], [], [], [], [], true, true);
        IdlePass(w, p, os.listener, os.pty);
        over := sel.SelectFailed?;
      }
    }

    /** The five phases, in order; `a` is what had been asked before the select. */
    method Work(canRead: set<Fd>, canWrite: set<Fd>, ghost s: Selected, ghost a: Trace)
      returns (over: bool, ghost t: Turn, ghost p: Pass)
      requires Valid() && !evictAttached
      requires Asked() == a.(selects := a.selects + [s], transients := os.transients) && Since(a, Asked())
      requires s == Selected({os.listener, os.pty} + Fds(clients), PendingSet(clients), Ready, canRead, canWrite)
      modifies this, os, scrollback, scrollback.buf, LogFile(), appLog.file
      ensures Valid() && !evictAttached && log == old(log)
      ensures Passed(old(View()), View(), t, p, os.listener, os.pty)
      ensures Traced(a, Asked(), t, p)
      ensures p.asked == s && (over <==> p.terminal != [] && Ends(p.terminal[0]))
    {
      ghost var w1, w2, w3, accepts, told;
      t, w1, w2, w3, accepts, told := Attend(canRead, canWrite);
      ghost var w4, b, outputs, rs, fan, calls := View(), Asked(), [], [], [], [];
      over, outputs, rs, fan, calls := HandlePtyOutput(canRead);
      ghost var calm, sound := Calm(old(Asked()), b), Sound(old(Asked()), b);
      t := t.(outputs := outputs);
      p := Pass(s, accepts, rs, fan, calls, told, Calm(a, Asked()), Sound(a, Asked()));
      PassDone(old(View()), t, p, w1, w2, w3, w4, View(), os.listener, os.pty, calm, sound);
      TraceDone(a, old(Asked()), b, Asked(), t, p);
    }

    /** The first four: everything but the terminal. */
    method Attend(canRead: set<Fd>, canWrite: set<Fd>)
      returns (ghost t: Turn, ghost w1: World, ghost w2: World, ghost w3: World,
               ghost accepts: seq<Option<Connection>>, ghost told: seq<byte>)
      requires Valid() && !evictAttached
      modifies this`clients, this`evictAttached, LogFile(), appLog.file
      modifies os`k, os`transients, os`failures, os`attempts, os`told, os`pushed, os`redraws, os`accepted
      ensures Valid() && !evictAttached
      ensures Attended(old(View()), w1, w2, w3, View(), t, accepts, told, canRead, canWrite, os.listener,
                       Calm(old(Asked()), Asked()), Sound(old(Asked()), Asked()))
      ensures TracedServing(old(Asked()), Asked(), accepts, t.serves, told)
    {
      ghost var joins, serves;
      joins, serves, w1, accepts, told := ServeConnections(canRead);
      w2 := View();
      ghost var b := Asked();
      ghost var evicts, drains;
      evicts, drains, w3 := EvictAndReplay(canWrite);
      ReplayTraced(old(Asked()), b, Asked(), accepts, serves, told);
      CompleteStays(w1.kernel, w1.ring, serves, Calm(old(Asked()), b), Sound(old(Asked()), b),
                    Calm(old(Asked()), Asked()), Sound(old(Asked()), Asked()));
      t := Turn(joins, serves, evicts, drains, []);
    }

    /** The eviction if asked for, which led to `w`, and then the replays. */
    method EvictAndReplay(canWrite: set<Fd>)
      returns (ghost evicts: seq<Event>, ghost drains: seq<Event>, ghost w: World)
      requires Valid()
      modifies this`clients, this`evictAttached, os`k, os`transients, os`failures, os`attempts
      ensures Valid() && !evictAttached && EvictedIfAsked(old(View()), evicts, w)
      ensures Leads(w, drains, View()) && DrainsOnly(drains) && DrainedFds(drains) == PendingFds(w.clients, canWrite)
      ensures Calm(old(Asked()), Asked()) && Sound(old(Asked()), Asked()) ==>
        Finished(w.clients, canWrite, clients, |clients|)
      ensures Asked() == old(Asked()).(writes := os.attempts, transients := os.transients, failures := os.failures)
      ensures Since(old(Asked()), Asked())
    {
      evicts := EvictIfAsked();
      w := View();
      drains := DrainReplay(canWrite);
    }

    /** A new connection, and one packet from each readable client. */
    method ServeConnections(canRead: set<Fd>)
      returns (ghost joins: seq<Event>, ghost serves: seq<Event>, ghost w1: World,
               ghost accepts: seq<Option<Connection>>, ghost told: seq<byte>)
      requires Valid()
      modifies this`clients, this`evictAttached, LogFile(), appLog.file
      modifies os`k, os`transients, os`failures, os`attempts, os`told, os`pushed, os`redraws, os`accepted
      ensures Valid()
      ensures Served(old(View()), w1, View(), joins, serves, accepts, canRead, os.listener)
      ensures TracedServing(old(Asked()), Asked(), accepts, serves, told)
      ensures Calm(old(Asked()), Asked()) && Sound(old(Asked()), Asked()) ==> told == RepliesOf(w1, serves)
      ensures AllComplete(w1.kernel, w1.ring, serves, Calm(old(Asked()), Asked()), Sound(old(Asked()), Asked()))
    {
      ghost var line;
      joins, accepts, line := AcceptIfReady(canRead);
      w1 := View();
      ghost var b := Asked();
      serves, told := ServeBatch(canRead);
      ServingTraced(old(Asked()), b, Asked(), accepts, serves, told);
    }

    method ServeBatch(canRead: set<Fd>) returns (ghost serves: seq<Event>, ghost told: seq<byte>)
      requires Valid()
      modifies this`clients, this`evictAttached
      modifies os`k, os`transients, os`failures, os`attempts, os`told, os`pushed, os`redraws
      ensures Valid() && Reached(old(View()), serves) && ServesOnly(serves) && NoDup(ServedFds(serves))
      ensures forall f :: f in ServedFds(serves) <==> f in canRead && f in Fds(old(clients))
      ensures TracedServing(old(Asked()), Asked(), [], serves, told)
      ensures Calm(old(Asked()), Asked()) && Sound(old(Asked()), Asked()) ==> told == RepliesOf(old(View()), serves)
      ensures AllComplete(old(os.k), old(View()).ring, serves,
                          Calm(old(Asked()), Asked()), Sound(old(Asked()), Asked()))
    {
      serves := HandleClientPackets(canRead);
      told := os.told[|old(os.told)|..];
    }

    method AcceptIfReady(canRead: set<Fd>)
      returns (ghost joins: seq<Event>, ghost accepts: seq<Option<Connection>>, ghost line: seq<byte>)
      requires Valid()
      modifies this`clients, os`k, os`accepted, LogFile(), appLog.file
      ensures Valid() && Reached(old(View()), joins) && JoinsOnly(joins)
      ensures Asked() == old(Asked()).(accepts := old(os.accepted) + accepts)
      ensures AcceptOk(joins, accepts, os.listener in canRead)
      ensures Warned(old(appLog.file.content), appLog.file.content, joins, line)
      ensures log == old(log)
    {
      joins, accepts, line := [], [], [];
      assert old(os.accepted) + [] == old(os.accepted);
      if os.listener in canRead {
        ghost var answer;
        joins, answer, line := AcceptClient();
        accepts := [answer];
      }
    }

    /** The log holds `text` and then the end marker. */
    ghost predicate Ended(log: SessionLog?, text: Option<seq<byte>>)
      reads if log == null then {} else {log.file}
    {
      log != null ==> text.Some? && log.file.content == text.value + marker
    }

    /** End of session: the marker is the last thing in the log. */
    method Cleanup()
      requires log != null ==> log.file.AtEnd()
      modifies this`log, LogFile()
      ensures log == null && View() == old(View()).(log := None)
      ensures Ended(old(log), old(View()).log)
    {
      if log != null {
        log.Close(marker);
        log := null;
      }
    }

    /** One pass on top of those made so far. */
    method OneMorePass(ghost w: World, ghost a: Trace, ghost ts: seq<Turn>, ghost ps: seq<Pass>)
      returns (over: bool, ghost ts': seq<Turn>, ghost ps': seq<Pass>)
      requires Valid() && !evictAttached
      requires PassedAll(w, View(), ts, ps, os.listener, os.pty) && !Stopped(ps) && TracedAll(a, Asked(), ts, ps)
      modifies this, os, scrollback, scrollback.buf, LogFile(), appLog.file
      ensures Valid() && !evictAttached && log == old(log)
      ensures PassedAll(w, View(), ts', ps', os.listener, os.pty) && TracedAll(a, Asked(), ts', ps')
      ensures |ts'| == |ts| + 1
      ensures over <==> Stopped(ps')
    {
      ghost var v, b := View(), Asked();
      ghost var t, p;
      over, t, p := Iterate();
      PassesGoOn(w, v, View(), ts, ps, t, p, os.listener, os.pty);
      TraceGrows(a, b, Asked(), ts, ps, t, p);
      ts', ps' := ts + [t], ps + [p];
    }

    /** Any number of passes.  The turns answer the passes, which made all the selects,
        accepts and reads of the terminal there were, and no pass follows one that
        ended the session. */
    method RunPasses(limit: nat) returns (over: bool, ghost ts: seq<Turn>, ghost ps: seq<Pass>)
      requires Valid() && !evictAttached
      modifies this, os, scrollback, scrollback.buf, LogFile(), appLog.file
      ensures Valid() && !evictAttached && log == old(log)
      ensures PassedAll(old(View()), View(), ts, ps, os.listener, os.pty)
      ensures TracedAll(old(Asked()), Asked(), ts, ps)
      ensures over || |ts| == limit
      ensures over <==> Stopped(ps)
    {
      over, ts, ps := false, [], [];
      TraceStarts(Asked());
      var k := 0;
      while k < limit && !over
        invariant Valid() && !evictAttached && log == old(log)
        invariant PassedAll(old(View()), View(), ts, ps, os.listener, os.pty)
        invariant TracedAll(old(Asked()), Asked(), ts, ps)
        invariant k == |ts| <= limit && (over <==> Stopped(ps))
        decreases limit - k
      {
        over, ts, ps := OneMorePass(old(View()), old(Asked()), ts, ps);
        k := k + 1;
      }
    }

    method CleanupIf(over: bool)
      requires log != null ==> log.file.AtEnd()
      modifies this`log, LogFile()
      ensures over ==> log == null && View() == old(View()).(log := None) && Ended(old(log), old(View()).log)
      ensures !over ==> View() == old(View())
      ensures Asked() == old(Asked())
    {
      if over {
        Cleanup();
      }
    }

    /** The loop, and the cleanup after it; at its head no eviction is ever pending. */
    method Run(limit: nat) returns (over: bool, ghost ts: seq<Turn>, ghost ps: seq<Pass>)
      requires Valid() && !evictAttached
      modifies this, os, scrollback, scrollback.buf, LogFile(), appLog.file
      ensures TurnsOk(old(View()), ts) && PassesOk(old(View()), ts, ps, os.listener, os.pty)
      ensures TracedAll(old(Asked()), Asked(), ts, ps)
      ensures Inv(AfterTurns(old(View()), ts)) && !AfterTurns(old(View()), ts).evict
      ensures over || |ts| == limit
      ensures over <==> Stopped(ps)
      ensures !over ==> View() == AfterTurns(old(View()), ts)
      ensures over ==> log == null && View() == AfterTurns(old(View()), ts).(log := None)
      ensures over ==> Ended(old(log), AfterTurns(old(View()), ts).log)
    {
      over, ts, ps := RunPasses(limit);
      CleanupIf(over);
    }
  }
}
