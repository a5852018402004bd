/** What the operating system can answer.  Every system call is an operation of
    `Os` whose outcome is chosen freely among those the kernel may give. */
module KernelModel {
  import opened Bytes

  type Fd = nat

  datatype Option<+T> = None | Some(value: T)

  /** What has been typed at the session's terminal, and on whose behalf. */
  datatype PtyInput = Pushed(who: Fd, bytes: seq<byte>) | CtrlL(who: Fd, bytes: seq<byte>)

  /** The kernel's side of the process: per open connection, the bytes it has
      taken from us (`sent`) and the bytes the peer has sent or will ever send
      that we have not read (`inbox`); how often each descriptor number was
      handed out and closed; what went to the terminal and what came from it,
      read by read; which signals went to the child and which window sizes were
      set. */
  datatype Kernel = Kernel(
    sent: map<Fd, seq<byte>>,
    inbox: map<Fd, seq<byte>>,
    accepts: multiset<Fd>,
    closes: multiset<Fd>,
    ptyIn: seq<PtyInput>,
    shown: seq<seq<byte>>,
    signals: seq<nat>,
    sizes: seq<seq<byte>>)
  {
    predicate IsOpen(fd: Fd) {
      fd in sent && fd in inbox
    }

    function Accepted(fd: Fd, stream: seq<byte>): Kernel {
      this.(sent := sent[fd := []], inbox := inbox[fd := stream], accepts := accepts + multiset{fd})
    }

    function Closed(fd: Fd): Kernel {
      this.(sent := sent - {fd}, inbox := inbox - {fd}, closes := closes + multiset{fd})
    }

    function Sent(fd: Fd, bytes: seq<byte>): Kernel
      requires IsOpen(fd)
    {
      this.(sent := sent[fd := sent[fd] + bytes])
    }

    function Consumed(fd: Fd, n: nat): Kernel
      requires IsOpen(fd) && n <= |inbox[fd]|
    {
      this.(inbox := inbox[fd := inbox[fd][n..]])
    }

    /** A write that took nothing leaves no trace. */
    function Typed(input: PtyInput): Kernel {
      if input.bytes == [] then this else this.(ptyIn := ptyIn + [input])
    }

    /** A chunk of terminal output was read. */
    function Shown(data: seq<byte>): Kernel {
      this.(shown := shown + [data])
    }

    function Signalled(sig: nat): Kernel {
      this.(signals := signals + [sig])
    }

    function Resized(size: seq<byte>): Kernel {
      this.(sizes := sizes + [size])
    }
  }

  const NEW_KERNEL: Kernel := Kernel(map[], map[], multiset{}, multiset{}, [], [], [], [])

  lemma SentNothing(k: Kernel, fd: Fd)
    requires k.IsOpen(fd)
    ensures k.Sent(fd, []) == k
  {
    assert k.sent[fd] + [] == k.sent[fd];
    assert k.sent[fd := k.sent[fd] + []] == k.sent;
  }

  lemma SentTwice(k: Kernel, fd: Fd, a: seq<byte>, b: seq<byte>)
    requires k.IsOpen(fd)
    ensures k.Sent(fd, a).Sent(fd, b) == k.Sent(fd, a + b)
  {
    assert k.sent[fd] + a + b == k.sent[fd] + (a + b);
  }

  lemma ConsumedNothing(k: Kernel, fd: Fd)
    requires k.IsOpen(fd)
    ensures k.Consumed(fd, 0) == k
  {
    assert k.inbox[fd := k.inbox[fd][0..]] == k.inbox;
  }

  lemma ConsumedTwice(k: Kernel, fd: Fd, a: nat, b: nat)
    requires k.IsOpen(fd) && a + b <= |k.inbox[fd]|
    ensures k.Consumed(fd, a).Consumed(fd, b) == k.Consumed(fd, a + b)
  {
    assert k.inbox[fd][a..][b..] == k.inbox[fd][a + b..];
  }

  /** Whatever was read or written last on a connection is gone once it is closed. */
  lemma ClosedForgets(k: Kernel, fd: Fd, n: nat, bytes: seq<byte>)
    requires k.IsOpen(fd) && n <= |k.inbox[fd]|
    ensures k.Consumed(fd, n).Closed(fd) == k.Closed(fd)
    ensures k.Sent(fd, bytes).Closed(fd) == k.Closed(fd)
  {
    assert k.inbox[fd := k.inbox[fd][n..]] - {fd} == k.inbox - {fd};
    assert k.sent[fd := k.sent[fd] + bytes] - {fd} == k.sent - {fd};
  }

  /** A read or write: it moved `n` bytes, or failed with EINTR, EAGAIN or another errno. */
  datatype IoResult = Did(n: nat) | Interrupted | Again | Failed(errno: int)

  /** A write call: to whom, of what, and what came of it. */
  datatype Attempt = Attempt(fd: Fd, data: seq<byte>, answer: IoResult) {
    predicate Whole() {
      answer == Did(|data|)
    }

    /** Neither everything nor EAGAIN: short, interrupted or failed. */
    predicate Broken() {
      !Whole() && !answer.Again?
    }
  }

  ghost function WholeFds(calls: seq<Attempt>): set<Fd> {
    set a | a in calls && a.Whole() :: a.fd
  }

  ghost function BrokenFds(calls: seq<Attempt>): set<Fd> {
    set a | a in calls && a.Broken() :: a.fd
  }

  ghost function CalledFds(calls: seq<Attempt>): set<Fd> {
    set a | a in calls :: a.fd
  }

  lemma CallsSplit(a: seq<Attempt>, b: seq<Attempt>)
    ensures WholeFds(a + b) == WholeFds(a) + WholeFds(b)
    ensures BrokenFds(a + b) == BrokenFds(a) + BrokenFds(b)
    ensures CalledFds(a + b) == CalledFds(a) + CalledFds(b)
  {
  }

  lemma OneCall(a: Attempt)
    ensures WholeFds([a]) == (if a.Whole() then {a.fd} else {})
    ensures BrokenFds([a]) == (if a.Broken() then {a.fd} else {})
  {
  }

  /** A read of the terminal: of how many bytes at most, and what came of it. */
  datatype PtyRead = PtyRead(max: nat, answer: IoResult)

  datatype SelectResult = Ready | SelectInterrupted | SelectFailed

  /** A select: what it was asked about, and what it said. */
  datatype Selected =
    Selected(readers: set<Fd>, writers: set<Fd>, result: SelectResult, canRead: set<Fd>, canWrite: set<Fd>)

  /** An accepted connection: the peer's process, and whether the socket can be made
      non-blocking. */
  datatype Connection = Connection(fd: Fd, pid: nat, nonblocking: bool)

  /** What came of an attempt to have the terminal redrawn by Ctrl-L. */
  datatype Redrawn = NotRaw(who: Fd) | Typed(input: PtyInput)

  class Os {
    var k: Kernel
    /** How many more times a call will fail transiently or make no progress.
        Any number, but finite: the environment does not fail for ever. */
    var transients: nat
    /** Every select, in order. */
    ghost var selects: seq<Selected>
    /** How many reads and writes of connections have failed for good. */
    ghost var failures: nat
    /** Every write to a connection, every read of the terminal and every accept, in order. */
    ghost var attempts: seq<Attempt>
    ghost var ptyReads: seq<PtyRead>
    var accepted: seq<Option<Connection>>
    /** All that was taken of text replies. */
    ghost var told: seq<byte>
    /** Everything typed at the terminal, taken or not: pushed input, and Ctrl-L if
        the terminal was found in raw mode. */
    ghost var pushed: seq<PtyInput>
    ghost var redraws: seq<Redrawn>
    const listener: Fd
    const pty: Fd

    constructor (listener: Fd, pty: Fd, transients: nat)
      ensures k == NEW_KERNEL
      ensures this.listener == listener && this.pty == pty
    {
      k := NEW_KERNEL;
      this.transients := transients;
      selects := [];
      failures, attempts, ptyReads, accepted, told, pushed, redraws := 0, [], [], [], [], [], [];
      this.listener, this.pty := listener, pty;
    }

    /** A new connection on a descriptor number that is not in use, or none. */
    method Accept() returns (fd: Option<Fd>, ghost answer: Option<Connection>, ghost stream: seq<byte>)
      modifies this`k, this`accepted
      ensures accepted == old(accepted) + [answer]
      ensures fd == if answer.Some? then Some(answer.value.fd) else None
      ensures fd.None? ==> k == old(k)
      ensures fd.Some? ==>
        && fd.value !in old(k).sent && fd.value !in old(k).inbox && fd.value != listener && fd.value != pty
        && k == old(k).Accepted(fd.value, stream)
    {
      var f: int := *;
      var s: seq<byte> := *;
      stream := s;
      if f < 0 || f in k.sent || f in k.inbox || f == listener || f == pty {
        fd := None;
        answer, accepted := None, accepted + [None];
      } else {
        var pid: nat :| true;
        var nonblocking: bool := *;
        k := k.Accepted(f, s);
        fd := Some(f);
        answer, accepted := Some(Connection(f, pid, nonblocking)), accepted + [Some(Connection(f, pid, nonblocking))];
      }
    }

    /** The connection accepted last. */
    ghost predicate Newest(c: Connection)
      reads this
    {
      accepted != [] && accepted[|accepted| - 1] == Some(c)
    }

    method SetNonblocking(ghost c: Connection) returns (ok: bool)
      requires Newest(c)
      ensures ok == c.nonblocking
    {
      ok := accepted[|accepted| - 1].value.nonblocking;
    }

    method PeerPid(ghost c: Connection) returns (pid: nat)
      requires Newest(c)
      ensures pid == c.pid
    {
      pid := accepted[|accepted| - 1].value.pid;
    }

    /** Only an open descriptor may be closed: no call closes one twice. */
    method Close(fd: Fd)
      requires k.IsOpen(fd)
      modifies this`k
      ensures k == old(k).Closed(fd)
    {
      k := k.Closed(fd);
    }

    /** A transient failure, if any is still to come. */
    method Hiccup() returns (r: IoResult)
      requires transients > 0
      modifies this`transients
      ensures transients < old(transients) && (r.Interrupted? || r.Again?)
    {
      transients := transients - 1;
      if * {
        r := Interrupted;
      } else {
        r := Again;
      }
    }

    /** Read up to `count` bytes into `buf` from offset `off`; 0 means end of stream. */
    method Read(fd: Fd, buf: array<byte>, off: nat, count: nat) returns (r: IoResult)
      requires k.IsOpen(fd) && off + count <= buf.Length && count > 0
      modifies this`k, this`transients, this`failures, buf
      ensures failures == old(failures) + (if r.Failed? then 1 else 0)
      ensures r.Did? ==>
        && r.n <= count && r.n <= |old(k).inbox[fd]|
        && (r.n == 0 <==> old(k).inbox[fd] == [])
        && k == old(k).Consumed(fd, r.n)
        && buf[..] == old(buf[..off]) + old(k).inbox[fd][..r.n] + old(buf[off + r.n..])
        && transients == old(transients)
      ensures !r.Did? ==> k == old(k) && buf[..] == old(buf[..]) && transients <= old(transients)
      ensures r.Interrupted? || r.Again? ==> transients < old(transients)
    {
      var fate: int := *;
      if fate == 0 && transients > 0 {
        r := Hiccup();
      } else if fate == 1 {
        var errno: int := *;
        failures := failures + 1;
        r := Failed(errno);
      } else {
        var here := k.inbox[fd];
        var most := Min(count, |here|);
        var n: nat :| n <= most && (n == 0 <==> most == 0);
        ghost var was := buf[..];
        forall j | 0 <= j < n {
          buf[off + j] := here[j];
        }
        assert buf[..] == was[..off] + here[..n] + was[off + n..];
        k := k.Consumed(fd, n);
        r := Did(n);
      }
    }

    /** Write some prefix of `data`; making no progress counts as a transient. */
    method Write(fd: Fd, data: seq<byte>) returns (r: IoResult)
      requires k.IsOpen(fd) && data != []
      modifies this`k, this`transients, this`failures, this`attempts
      ensures failures == old(failures) + (if r.Failed? then 1 else 0)
      ensures attempts == old(attempts) + [Attempt(fd, data, r)]
      ensures r.Did? ==> r.n <= |data| && k == old(k).Sent(fd, data[..r.n])
      ensures r.Did? && r.n > 0 ==> transients == old(transients)
      ensures !r.Did? ==> k == old(k) && transients <= old(transients)
      ensures r.Interrupted? || r.Again? || r == Did(0) ==> transients < old(transients)
    {
      var fate: int := *;
      if fate == 0 && transients > 0 {
        r := Hiccup();
      } else if fate == 1 {
        var errno: int := *;
        failures := failures + 1;
        r := Failed(errno);
      } else {
        var n: nat :| n <= |data| && (n == 0 ==> transients > 0);
        if n == 0 {
          transients := transients - 1;
        }
        k := k.Sent(fd, data[..n]);
        r := Did(n);
      }
      attempts := attempts + [Attempt(fd, data, r)];
    }

    /** A write that is part of a text reply. */
    method Tell(fd: Fd, text: seq<byte>) returns (r: IoResult)
      requires k.IsOpen(fd) && text != []
      modifies this`k, this`transients, this`failures, this`attempts, this`told
      ensures failures == old(failures) + (if r.Failed? then 1 else 0)
      ensures r.Did? ==> r.n <= |text| && k == old(k).Sent(fd, text[..r.n]) && told == old(told) + text[..r.n]
      ensures r.Did? && r.n > 0 ==> transients == old(transients)
      ensures !r.Did? ==> k == old(k) && transients <= old(transients) && told == old(told)
      ensures r.Interrupted? || r.Again? || r == Did(0) ==> transients < old(transients)
    {
      r := Write(fd, text);
      if r.Did? {
        told := told + text[..r.n];
      }
    }

    /** Type at the terminal: some prefix of the bytes is taken. */
    method Type(input: PtyInput) returns (ghost taken: PtyInput)
      modifies this`k, this`pushed, this`redraws
      ensures taken.who == input.who && (taken.Pushed? <==> input.Pushed?) && taken.bytes <= input.bytes
      ensures k == old(k).Typed(taken)
      ensures pushed == old(pushed) + (if input.Pushed? then [input] else [])
      ensures redraws == old(redraws) + (if input.CtrlL? then [Typed(input)] else [])
    {
      if input.Pushed? {
        pushed := pushed + [input];
      } else {
        redraws := redraws + [Typed(input)];
      }
      var n: nat :| n <= |input.bytes|;
      var t := input.(bytes := input.bytes[..n]);
      k := k.Typed(t);
      taken := t;
    }

    /** Is the terminal in raw mode?  Asked before a Ctrl-L is typed for `who`. */
    method IsRaw(ghost who: Fd) returns (raw: bool)
      modifies this`redraws
      ensures redraws == old(redraws) + (if raw then [] else [NotRaw(who)])
    {
      raw := *;
      if !raw {
        redraws := redraws + [NotRaw(who)];
      }
    }

    /** Read terminal output, at most `max` bytes; 0 means the child is gone. */
    method ReadPty(max: nat) returns (r: IoResult, data: seq<byte>)
      requires max > 0
      modifies this`k, this`transients, this`ptyReads
      ensures ptyReads == old(ptyReads) + [PtyRead(max, r)]
      ensures r.Did? ==> |data| == r.n <= max
      ensures k == if r.Did? && r.n > 0 then old(k).Shown(data) else old(k)
      ensures transients <= old(transients)
      ensures r.Interrupted? || r.Again? ==> transients < old(transients)
    {
      data := [];
      var fate: int := *;
      if fate == 0 && transients > 0 {
        r := Hiccup();
      } else if fate == 1 {
        var errno: int := *;
        r := Failed(errno);
      } else {
        data := *;
        if |data| > max {
          data := data[..max];
        }
        if data != [] {
          k := k.Shown(data);
        }
        r := Did(|data|);
      }
      ptyReads := ptyReads + [PtyRead(max, r)];
    }

    method Kill(sig: nat)
      modifies this`k
      ensures k == old(k).Signalled(sig)
    {
      k := k.Signalled(sig);
    }

    method SetWinsize(size: seq<byte>)
      modifies this`k
      ensures k == old(k).Resized(size)
    {
      k := k.Resized(size);
    }

    /** Wait for readiness.  Every descriptor handed over must be open: a closed
        one would fail the call with EBADF. */
    method Select(readers: set<Fd>, writers: set<Fd>) returns (r: SelectResult, canRead: set<Fd>, canWrite: set<Fd>)
      requires listener in readers
      requires forall fd <- readers + writers :: k.IsOpen(fd) || fd == listener || fd == pty
      modifies this`transients, this`selects
      ensures transients <= old(transients)
      ensures r.SelectInterrupted? ==> transients < old(transients)
      ensures canRead <= readers && canWrite <= writers
      ensures r.Ready? ==> canRead + canWrite != {}
      ensures !r.Ready? ==> canRead == {} && canWrite == {}
      ensures selects == old(selects) + [Selected(readers, writers, r, canRead, canWrite)]
    {
      canRead, canWrite := {}, {};
      var fate: int := *;
      if fate == 0 && transients > 0 {
        transients := transients - 1;
        r := SelectInterrupted;
      } else if fate == 1 {
        r := SelectFailed;
      } else {
        canRead := *;
        canWrite := *;
        canRead, canWrite := canRead * readers, canWrite * writers;
        if canRead + canWrite == {} {
          canRead := {listener};
        }
        r := Ready;
      }
      selects := selects + [Selected(readers, writers, r, canRead, canWrite)];
    }
  }
}
