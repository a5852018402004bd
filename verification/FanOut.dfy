/** How closings and deliveries over several clients add up. */
module FanOut {
  import opened Bytes
  import opened KernelModel
  import opened DaemonModel
  import opened DaemonSafety
  import opened Batch

  lemma ClosedAllOfNone(k: Kernel)
    ensures ClosedAll(k, {}) == k
  {
    assert k.sent - {} == k.sent && k.inbox - {} == k.inbox;
    assert k.closes + multiset({}) == k.closes;
  }

  lemma CloseOneMore(k: Kernel, gone: set<Fd>, fd: Fd)
    requires fd !in gone
    ensures ClosedAll(k, gone).Closed(fd) == ClosedAll(k, gone + {fd})
  {
    assert k.sent - gone - {fd} == k.sent - (gone + {fd});
    assert k.inbox - gone - {fd} == k.inbox - (gone + {fd});
    OneMore(k.closes, gone, fd);
  }

  lemma ClosedAllTwice(k: Kernel, a: set<Fd>, b: set<Fd>)
    requires a !! b
    ensures ClosedAll(ClosedAll(k, a), b) == ClosedAll(k, a + b)
  {
    assert k.sent - a - b == k.sent - (a + b);
    assert k.inbox - a - b == k.inbox - (a + b);
    assert multiset(a + b) == multiset(a) + multiset(b);
  }

  lemma FannedOutToNone(k: Kernel, data: seq<byte>, bad: set<Fd>)
    ensures FannedOut(k, data, {}, bad) == ClosedAll(k, bad)
  {
    assert FannedOut(k, data, {}, bad).sent == k.sent - bad;
  }

  /** A round of writes in which only `bad` clients were left part-written:
      closing them leaves everyone else with the whole chunk or nothing. */
  lemma RoundThenClose(k: Kernel, k': Kernel, data: seq<byte>, wrote: set<Fd>, bad: set<Fd>)
    requires Delivered(k, k', data, wrote, bad)
    ensures ClosedAll(k', bad) == FannedOut(k, data, wrote, bad)
  {
    var a, b := ClosedAll(k', bad), FannedOut(k, data, wrote, bad);
    forall f | f in a.sent ensures f in b.sent && a.sent[f] == b.sent[f] {
    }
    assert a.sent.Keys == b.sent.Keys;
    assert a.sent == b.sent;
  }

  /** Only what was sent differs, and outside `bad` only by whole chunks. */
  ghost predicate Delivered(k: Kernel, k': Kernel, data: seq<byte>, wrote: set<Fd>, bad: set<Fd>) {
    && k' == k.(sent := k'.sent)
    && k'.sent.Keys == k.sent.Keys
    && forall f | f in k.sent && f !in bad :: k'.sent[f] == if f in wrote then k.sent[f] + data else k.sent[f]
  }

  lemma DeliveredNothing(k: Kernel, data: seq<byte>)
    ensures Delivered(k, k, data, {}, {})
  {
  }

  /** One more client that took the whole chunk. */
  lemma DeliveredWhole(k: Kernel, k': Kernel, data: seq<byte>, wrote: set<Fd>, bad: set<Fd>, fd: Fd)
    requires Delivered(k, k', data, wrote, bad) && k'.IsOpen(fd) && fd !in wrote + bad
    ensures Delivered(k, k'.Sent(fd, data), data, wrote + {fd}, bad)
  {
  }

  /** One more client that took part of it, or none. */
  lemma DeliveredPart(k: Kernel, k': Kernel, data: seq<byte>, wrote: set<Fd>, bad: set<Fd>, fd: Fd, part: seq<byte>)
    requires Delivered(k, k', data, wrote, bad) && k'.IsOpen(fd) && fd !in wrote + bad
    ensures Delivered(k, k'.Sent(fd, part), data, wrote, bad + {fd})
  {
  }

  /** Earlier rounds only lost clients; the last one also delivers. */
  lemma RoundsCompose(k: Kernel, data: seq<byte>, before: set<Fd>, wrote: set<Fd>, bad: set<Fd>)
    requires before !! bad && wrote !! before
    ensures FannedOut(ClosedAll(k, before), data, wrote, bad) == FannedOut(k, data, wrote, before + bad)
  {
    var a, b := FannedOut(ClosedAll(k, before), data, wrote, bad), FannedOut(k, data, wrote, before + bad);
    assert a.sent.Keys == b.sent.Keys;
    assert a.sent == b.sent;
    ClosedAllTwice(k, before, bad);
  }

  lemma {:induction false} WithoutNone(cs: seq<Client>)
    ensures Without(cs, {}) == cs
  {
    if cs == [] {
    } else {
      WithoutNone(cs[..|cs| - 1]);
    }
  }

  lemma {:induction false} WithoutTwice(cs: seq<Client>, a: set<Fd>, b: set<Fd>)
    ensures Without(Without(cs, a), b) == Without(cs, a + b)
  {
    if cs == [] {
    } else {
      var rest, last := cs[..|cs| - 1], cs[|cs| - 1];
      WithoutTwice(rest, a, b);
      if last.fd in a {
        assert Without(cs, a) == Without(rest, a);
      } else {
        var l := Without(cs, a);
        assert l[..|l| - 1] == Without(rest, a) && l[|l| - 1] == last;
      }
    }
  }

  /** Filtering by "is attached" is filtering by the attached descriptors. */
  lemma AttachedByFd(cs: seq<Client>, j: nat)
    requires DistinctFds(cs) && j < |cs|
    ensures cs[j].attached <==> cs[j].fd in AttachedFds(cs)
  {
  }

  lemma AttachedAreListed(cs: seq<Client>)
    ensures AttachedFds(cs) <= Fds(cs)
  {
  }

  lemma PrefixGrows<T>(s: seq<T>, j: nat)
    requires j < |s|
    ensures s[..j + 1] == s[..j] + [s[j]]
  {
  }

  /** The attached clients of a longer prefix. */
  lemma AttachedPrefix(cs: seq<Client>, j: nat)
    requires DistinctFds(cs) && j < |cs|
    ensures AttachedFds(cs[..j + 1]) ==
      if cs[j].attached then AttachedFds(cs[..j]) + {cs[j].fd} else AttachedFds(cs[..j])
    ensures cs[j].fd !in AttachedFds(cs[..j])
  {
    assert cs[..j + 1] == cs[..j] + [cs[j]];
  }

  lemma {:induction false} WithoutShrinks(cs: seq<Client>, gone: set<Fd>)
    ensures |Without(cs, gone)| <= |cs|
    ensures gone * Fds(cs) != {} ==> |Without(cs, gone)| < |cs|
  {
    if cs == [] {
    } else {
      var rest, last := cs[..|cs| - 1], cs[|cs| - 1];
      WithoutShrinks(rest, gone);
      if last.fd !in gone && gone * Fds(cs) != {} {
        var f :| f in gone && f in Fds(cs);
        var c :| c in cs && c.fd == f;
        assert c in rest;
      }
    }
  }

  /** Who is still attached after some clients were lost. */
  lemma AttachedOfRest(cs: seq<Client>, gone: set<Fd>)
    ensures AttachedFds(Without(cs, gone)) == AttachedFds(cs) - gone
  {
    WithoutIsFilter(cs, gone);
    forall f | f in AttachedFds(cs) - gone ensures f in AttachedFds(Without(cs, gone)) {
      var c :| c in cs && c.attached && c.fd == f;
      assert c in Without(cs, gone);
    }
  }

  /** A fan-out that has so far delivered to nobody and lost the clients `bad`. */
  ghost predicate Losing(k: Kernel, cs: seq<Client>, k': Kernel, cs': seq<Client>, bad: set<Fd>) {
    bad <= AttachedFds(cs) && cs' == Without(cs, bad) && k' == ClosedAll(k, bad)
  }

  ghost predicate AllOpen(k: Kernel, cs: seq<Client>) {
    DistinctFds(cs) && forall c <- cs :: k.IsOpen(c.fd)
  }

  lemma LosingNobody(k: Kernel, cs: seq<Client>)
    ensures Losing(k, cs, k, cs, {})
  {
    ClosedAllOfNone(k);
    WithoutNone(cs);
  }

  lemma LosingKeepsOpen(k: Kernel, cs: seq<Client>, k': Kernel, cs': seq<Client>, bad: set<Fd>)
    requires Losing(k, cs, k', cs', bad) && AllOpen(k, cs)
    ensures AllOpen(k', cs')
  {
    WithoutIsFilter(cs, bad);
  }

  lemma LosingIsFanOut(k: Kernel, cs: seq<Client>, k': Kernel, cs': seq<Client>, bad: set<Fd>, data: seq<byte>)
    requires Losing(k, cs, k', cs', bad)
    ensures k' == FannedOut(k, data, {}, bad)
  {
    FannedOutToNone(k, data, bad);
  }

  /** One more round on top. */
  lemma LosingThenRound(k: Kernel, cs: seq<Client>, k1: Kernel, cs1: seq<Client>, bad: set<Fd>,
                        data: seq<byte>, wrote: set<Fd>, lost: set<Fd>)
    requires Losing(k, cs, k1, cs1, bad) && wrote !! lost && wrote + lost <= AttachedFds(cs1)
    ensures wrote !! bad + lost && wrote + (bad + lost) <= AttachedFds(cs)
    ensures Without(cs1, lost) == Without(cs, bad + lost)
    ensures FannedOut(k1, data, wrote, lost) == FannedOut(k, data, wrote, bad + lost)
    ensures wrote == {} ==> Losing(k, cs, FannedOut(k1, data, wrote, lost), Without(cs1, lost), bad + lost)
  {
    AttachedOfRest(cs, bad);
    RoundsCompose(k, data, bad, wrote, lost);
    WithoutTwice(cs, bad, lost);
    FannedOutToNone(k, data, bad + lost);
  }

  // ---- one round of writes -------------------------------------------------

  ghost function SetOf(s: seq<Fd>): set<Fd> {
    set f | f in s
  }

  lemma SetOfSnoc(s: seq<Fd>, f: Fd)
    ensures SetOf(s + [f]) == SetOf(s) + {f}
  {
  }

  lemma {:induction false} SetOfSize(s: seq<Fd>)
    requires NoDup(s)
    ensures |SetOf(s)| == |s|
  {
    if s == [] {
    } else {
      var rest, f := s[..|s| - 1], s[|s| - 1];
      assert s == rest + [f];
      NoDupPrefix(rest, f);
      SetOfSize(rest);
      SetOfSnoc(rest, f);
    }
  }

  /** Closing the clients a round of writes went wrong for. */
  lemma AfterRound(k: Kernel, k': Kernel, cs: seq<Client>, data: seq<byte>, wrote: set<Fd>, badFds: seq<Fd>)
    requires AllOpen(k, cs) && Delivered(k, k', data, wrote, SetOf(badFds))
    requires NoDup(badFds) && SetOf(badFds) <= AttachedFds(cs)
    ensures forall f <- badFds :: k'.IsOpen(f)
    ensures ClosedAll(k', SetOf(badFds)) == FannedOut(k, data, wrote, SetOf(badFds))
    ensures |SetOf(badFds)| == |badFds|
    ensures |Without(cs, SetOf(badFds))| <= |cs|
    ensures badFds != [] ==> |Without(cs, SetOf(badFds))| < |cs|
  {
    var bad := SetOf(badFds);
    RoundThenClose(k, k', data, wrote, bad);
    SetOfSize(badFds);
    AttachedAreListed(cs);
    WithoutShrinks(cs, bad);
    assert forall f <- badFds :: f in bad;
    if badFds != [] {
      assert badFds[0] in bad * Fds(cs);
    }
  }

  function AskedFds(calls: seq<Attempt>): seq<Fd> {
    if calls == [] then [] else AskedFds(calls[..|calls| - 1]) + [calls[|calls| - 1].fd]
  }

  /** The attached clients whose sockets are writable, in list order. */
  function TargetFds(cs: seq<Client>, writable: set<Fd>): seq<Fd> {
    if cs == [] then []
    else
      var c := cs[|cs| - 1];
      TargetFds(cs[..|cs| - 1], writable) + (if c.attached && c.fd in writable then [c.fd] else [])
  }

  lemma {:induction false} AskedAreCalled(calls: seq<Attempt>)
    ensures forall f :: f in AskedFds(calls) <==> f in CalledFds(calls)
  {
    if calls == [] {
    } else {
      var before, a := calls[..|calls| - 1], calls[|calls| - 1];
      AskedAreCalled(before);
      assert calls == before + [a];
      CallsSplit(before, [a]);
    }
  }

  lemma {:induction false} AttachedAreTargets(cs: seq<Client>, writable: set<Fd>)
    ensures forall f :: f in AttachedFds(cs) && f in writable <==> f in TargetFds(cs, writable)
  {
    if cs == [] {
    } else {
      var before, c := cs[..|cs| - 1], cs[|cs| - 1];
      AttachedAreTargets(before, writable);
      assert cs == before + [c];
      forall f | f in AttachedFds(cs) && f in writable ensures f in TargetFds(cs, writable) {
        var d :| d in cs && d.attached && d.fd == f;
        assert d in before || d == c;
      }
    }
  }

  /** A round leaves no writable attached client unasked, and asks nobody else. */
  lemma WritableAreCalled(cs: seq<Client>, writable: set<Fd>, calls: seq<Attempt>)
    requires AskedFds(calls) == TargetFds(cs, writable) && writable <= AttachedFds(cs)
    ensures CalledFds(calls) == writable
  {
    AskedAreCalled(calls);
    AttachedAreTargets(cs, writable);
  }

  lemma TargetsAreAsked(cs: seq<Client>, writable: set<Fd>, calls: seq<Attempt>)
    requires AskedFds(calls) == TargetFds(cs, writable) && AttachedFds(cs) * writable != {}
    ensures calls != []
  {
    SomeTarget(cs, writable);
  }

  lemma {:induction false} SomeTarget(cs: seq<Client>, writable: set<Fd>)
    requires AttachedFds(cs) * writable != {}
    ensures TargetFds(cs, writable) != []
  {
    var c := cs[|cs| - 1];
    if !(c.attached && c.fd in writable) {
      var f :| f in AttachedFds(cs) && f in writable;
      var d :| d in cs && d.attached && d.fd == f;
      assert d in cs[..|cs| - 1];
      SomeTarget(cs[..|cs| - 1], writable);
    }
  }

  /** A round over `cs` has made the write calls `calls`, one to each target in
      list order: `wrote` are those that took the whole chunk, `badFds` those
      whose answer was neither that nor EAGAIN. */
  ghost predicate Round(k: Kernel, cs: seq<Client>, data: seq<byte>, writable: set<Fd>,
                        calls: seq<Attempt>, k': Kernel, wrote: set<Fd>, badFds: seq<Fd>) {
    && Delivered(k, k', data, wrote, SetOf(badFds))
    && NoDup(badFds) && wrote !! SetOf(badFds) && wrote + SetOf(badFds) <= AttachedFds(cs)
    && wrote == WholeFds(calls) && SetOf(badFds) == BrokenFds(calls)
    && AskedFds(calls) == TargetFds(cs, writable) && AllOf(calls, data)
  }

  /** Every write was of the whole chunk. */
  ghost predicate AllOf(calls: seq<Attempt>, data: seq<byte>) {
    forall a <- calls :: a.data == data
  }

  lemma RoundStarts(k: Kernel, data: seq<byte>, writable: set<Fd>)
    ensures Round(k, [], data, writable, [], k, {}, [])
  {
    assert SetOf([]) == {};
    DeliveredNothing(k, data);
  }

  lemma RoundSkips(k: Kernel, cs: seq<Client>, data: seq<byte>, writable: set<Fd>,
                   calls: seq<Attempt>, k': Kernel, wrote: set<Fd>, badFds: seq<Fd>, c: Client)
    requires Round(k, cs, data, writable, calls, k', wrote, badFds)
    requires !(c.attached && c.fd in writable)
    ensures Round(k, cs + [c], data, writable, calls, k', wrote, badFds)
  {
    assert (cs + [c])[..|cs|] == cs;
    assert AttachedFds(cs) <= AttachedFds(cs + [c]);
  }

  lemma CallMade(cs: seq<Client>, writable: set<Fd>, calls: seq<Attempt>, c: Client, a: Attempt)
    requires AskedFds(calls) == TargetFds(cs, writable) && c.attached && c.fd in writable && a.fd == c.fd
    ensures AskedFds(calls + [a]) == TargetFds(cs + [c], writable)
    ensures AttachedFds(cs + [c]) == AttachedFds(cs) + {c.fd}
    ensures WholeFds(calls + [a]) == WholeFds(calls) + (if a.Whole() then {a.fd} else {})
    ensures BrokenFds(calls + [a]) == BrokenFds(calls) + (if a.Broken() then {a.fd} else {})
  {
    assert (cs + [c])[..|cs|] == cs && (calls + [a])[..|calls|] == calls;
    CallsSplit(calls, [a]);
    OneCall(a);
  }

  /** The client took the whole chunk. */
  lemma RoundWrites(k: Kernel, cs: seq<Client>, data: seq<byte>, writable: set<Fd>,
                    calls: seq<Attempt>, k': Kernel, wrote: set<Fd>, badFds: seq<Fd>, c: Client, a: Attempt)
    requires Round(k, cs, data, writable, calls, k', wrote, badFds)
    requires c.attached && c.fd in writable && c.fd !in AttachedFds(cs) && k'.IsOpen(c.fd)
    requires a.fd == c.fd && a.data == data && a.Whole()
    ensures Round(k, cs + [c], data, writable, calls + [a], k'.Sent(c.fd, data), wrote + {c.fd}, badFds)
  {
    CallMade(cs, writable, calls, c, a);
    DeliveredWhole(k, k', data, wrote, SetOf(badFds), c.fd);
    assert SetOf(badFds) == BrokenFds(calls + [a]) && wrote + {c.fd} == WholeFds(calls + [a]);
  }

  /** Its socket was full after all. */
  lemma RoundPasses(k: Kernel, cs: seq<Client>, data: seq<byte>, writable: set<Fd>,
                    calls: seq<Attempt>, k': Kernel, wrote: set<Fd>, badFds: seq<Fd>, c: Client, a: Attempt)
    requires Round(k, cs, data, writable, calls, k', wrote, badFds)
    requires c.attached && c.fd in writable && a.fd == c.fd && a.data == data && a.answer.Again?
    ensures Round(k, cs + [c], data, writable, calls + [a], k', wrote, badFds)
  {
    CallMade(cs, writable, calls, c, a);
  }

  /** Anything else: part of the chunk, or a failure. */
  lemma RoundBreaks(k: Kernel, cs: seq<Client>, data: seq<byte>, writable: set<Fd>, calls: seq<Attempt>,
                    k': Kernel, wrote: set<Fd>, badFds: seq<Fd>, c: Client, a: Attempt, part: seq<byte>)
    requires Round(k, cs, data, writable, calls, k', wrote, badFds)
    requires c.attached && c.fd in writable && c.fd !in AttachedFds(cs) && k'.IsOpen(c.fd)
    requires a.fd == c.fd && a.data == data && a.Broken()
    ensures Round(k, cs + [c], data, writable, calls + [a], k'.Sent(c.fd, part), wrote, badFds + [c.fd])
  {
    CallMade(cs, writable, calls, c, a);
    DeliveredPart(k, k', data, wrote, SetOf(badFds), c.fd, part);
    SetOfSnoc(badFds, c.fd);
    assert c.fd !in SetOf(badFds) && NoDup(badFds + [c.fd]);
    assert SetOf(badFds + [c.fd]) == BrokenFds(calls + [a]) && wrote == WholeFds(calls + [a]);
  }

  // ---- when to stop --------------------------------------------------------

  /** Why a fan-out stopped trying. */
  datatype Stop = SomeoneWritten | NobodyAttached | NewConnection | SelectBroken

  /** What one pass comes to: it asked `s`, wrote the whole chunk to `wrote`, and
      left `attached`. */
  function Verdict(s: Selected, listener: Fd, wrote: set<Fd>, attached: set<Fd>): Option<Stop> {
    match s.result
    case SelectInterrupted => None
    case SelectFailed => Some(SelectBroken)
    case Ready =>
      if wrote != {} then Some(SomeoneWritten)
      else if listener in s.canRead then Some(NewConnection)
      else if attached == {} then Some(NobodyAttached)
      else None
  }

  /** It goes on only with somebody to write to and no reason to look elsewhere. */
  lemma VerdictIsExact(s: Selected, listener: Fd, wrote: set<Fd>, attached: set<Fd>)
    ensures Verdict(s, listener, wrote, attached).None? <==>
      || s.result.SelectInterrupted?
      || (s.result.Ready? && wrote == {} && listener !in s.canRead && attached != {})
    ensures Verdict(s, listener, wrote, attached).Some? ==>
      match Verdict(s, listener, wrote, attached).value
      case SomeoneWritten => wrote != {}
      case NewConnection => wrote == {} && listener in s.canRead
      case NobodyAttached => attached == {}
      case SelectBroken => s.result.SelectFailed?
  {
  }

  /** A fan-out makes a pass unless nobody is attached to begin with, and stops with
      the verdict of the last one. */
  ghost predicate Answered(passes: seq<Selected>, listener: Fd, wrote: set<Fd>, attached: set<Fd>,
                           attached0: set<Fd>, stop: Option<Stop>) {
    if attached0 == {} then passes == [] && stop == Some(NobodyAttached)
    else passes != [] && stop == Verdict(passes[|passes| - 1], listener, wrote, attached)
  }

  /** Every pass asked for the listener and for the attached clients, all of them but
      some of those lost, and every one found writable was written to. */
  ghost predicate AllAsked(passes: seq<Selected>, listener: Fd, attached: set<Fd>, bad: set<Fd>, calls: seq<Attempt>) {
    forall s <- passes ::
      s.readers == {listener} && attached - bad <= s.writers <= attached && s.canWrite <= CalledFds(calls)
  }

  /** A pass after which the fan-out has reason to go on, if nobody was written to. */
  predicate Undecided(s: Selected, listener: Fd) {
    s.result.SelectInterrupted? || (s.result.Ready? && listener !in s.canRead)
  }

  /** It was the last pass that decided: none before it had to, nobody took the chunk
      before it, and it wrote to exactly those it found writable. */
  ghost predicate LastDecides(passes: seq<Selected>, listener: Fd, calls: seq<Attempt>) {
    passes != [] ==>
      && (forall s <- passes[..|passes| - 1] :: Undecided(s, listener))
      && exists k: nat | k <= |calls| ::
           WholeFds(calls[..k]) == {} && CalledFds(calls[k..]) == passes[|passes| - 1].canWrite
  }

  lemma OneDecides(passes: seq<Selected>, s: Selected, listener: Fd, calls: seq<Attempt>, more: seq<Attempt>)
    requires (forall p <- passes :: Undecided(p, listener)) && WholeFds(calls) == {} && CalledFds(more) == s.canWrite
    ensures LastDecides(passes + [s], listener, calls + more)
  {
    assert (passes + [s])[..|passes|] == passes;
    assert (calls + more)[..|calls|] == calls && (calls + more)[|calls|..] == more;
  }

  /** A fan-out so far: the passes and write calls it made, and what came of them. */
  ghost predicate Fanning(k: Kernel, cs: seq<Client>, data: seq<byte>, listener: Fd, k': Kernel, cs': seq<Client>,
                          passes: seq<Selected>, calls: seq<Attempt>, wrote: set<Fd>, bad: set<Fd>) {
    && wrote == WholeFds(calls) && bad == BrokenFds(calls)
    && wrote !! bad && wrote + bad <= AttachedFds(cs)
    && cs' == Without(cs, bad) && k' == FannedOut(k, data, wrote, bad)
    && AllAsked(passes, listener, AttachedFds(cs), bad, calls) && AllOf(calls, data)
  }

  lemma FanningStarts(k: Kernel, cs: seq<Client>, data: seq<byte>, listener: Fd)
    ensures Fanning(k, cs, data, listener, k, cs, [], [], {}, {}) && Losing(k, cs, k, cs, {})
  {
    LosingNobody(k, cs);
    LosingIsFanOut(k, cs, k, cs, {}, data);
  }

  lemma OnePassMore(passes: seq<Selected>, s: Selected, listener: Fd, attached: set<Fd>, lost: set<Fd>, bad: set<Fd>,
                    calls: seq<Attempt>, more: seq<Attempt>)
    requires AllAsked(passes, listener, attached, lost, calls) && lost <= bad
    requires s.readers == {listener} && s.writers == attached - lost && s.canWrite <= CalledFds(more)
    ensures AllAsked(passes + [s], listener, attached, bad, calls + more)
  {
    CallsSplit(calls, more);
  }
}
