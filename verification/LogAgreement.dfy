/** The session log against the ring and the terminal output. */
module LogAgreement {
  import opened Bytes
  import opened KernelModel
  import opened ScrollbackRing
  import opened DaemonModel
  import opened DaemonSafety
  import opened Batch
  import opened Delivery

  /** The lines of rejected connections. */
  function Warnings(es: seq<Event>): nat {
    if es == [] then 0
    else Warnings(es[..|es| - 1]) + (if es[|es| - 1].Refuse? then |es[|es| - 1].warning| else 0)
  }

  /** Everything the steps write to a log. */
  function LogText(es: seq<Event>): seq<byte> {
    if es == [] then []
    else
      var e := es[|es| - 1];
      LogText(es[..|es| - 1]) + (if e.Output? then e.data else if e.Refuse? then e.warning else [])
  }

  lemma StepWrites(w: World, e: Event)
    requires Enabled(w, e)
    ensures Apply(w, e).log == Logged(w.log, if e.Output? then e.data else if e.Refuse? then e.warning else [])
    ensures Apply(w, e).kernel.shown == w.kernel.shown + (if e.Output? then [e.data] else [])
  {
    if w.log.Some? {
      assert w.log.value + [] == w.log.value;
    }
    if e.Serve? {
      TurnOnClients(w, e);
    }
  }

  lemma LoggedTwice(log: Option<seq<byte>>, a: seq<byte>, b: seq<byte>)
    ensures Logged(Logged(log, a), b) == Logged(log, a + b)
  {
    if log.Some? {
      assert log.value + a + b == log.value + (a + b);
    }
  }

  lemma {:induction false} RunWrites(w: World, es: seq<Event>)
    requires Legal(w, es)
    ensures After(w, es).log == Logged(w.log, LogText(es))
    ensures After(w, es).kernel.shown == w.kernel.shown + Chunks(es)
  {
    if es == [] {
      if w.log.Some? {
        assert w.log.value + [] == w.log.value;
      }
    } else {
      var before, e := es[..|es| - 1], es[|es| - 1];
      RunWrites(w, before);
      StepWrites(After(w, before), e);
      LoggedTwice(w.log, LogText(before), if e.Output? then e.data else if e.Refuse? then e.warning else []);
    }
  }

  lemma {:induction false} LogTextSize(es: seq<Event>)
    ensures |LogText(es)| == |Flatten(Chunks(es))| + Warnings(es)
    ensures Warnings(es) == 0 ==> LogText(es) == Flatten(Chunks(es))
  {
    if es == [] {
    } else {
      var before, e := es[..|es| - 1], es[|es| - 1];
      LogTextSize(before);
      if e.Output? {
        FlattenSnoc(Chunks(before), e.data);
      } else {
        assert Chunks(es) == Chunks(before);
      }
    }
  }

  /** The log is the old contents and then the whole terminal output, in every
      run, if and only if no rejected connection put a line into it. */
  lemma LogIsOutput(w: World, es: seq<Event>, base: seq<byte>)
    requires Legal(w, es) && w.log == Some(base) && w.kernel.shown == []
    ensures After(w, es).log == Some(base + Flatten(After(w, es).kernel.shown)) <==> Warnings(es) == 0
  {
    RunWrites(w, es);
    LogTextSize(es);
    assert w.kernel.shown + Chunks(es) == Chunks(es);
    if Warnings(es) != 0 {
      assert |base + LogText(es)| != |base + Flatten(Chunks(es))|;
    }
  }

  /** The end of the output is the end of the log. */
  lemma SuffixOfLog(base: seq<byte>, out: seq<byte>, held: seq<byte>)
    requires held == Last(SCROLLBACK_SIZE, out)
    ensures |held| <= |base + out| && held == (base + out)[|base + out| - |held|..]
  {
  }

  lemma TailIsSuffix(now: World, base: seq<byte>)
    requires Inv(now) && now.log == Some(base + Flatten(now.kernel.shown))
    ensures now.ring.len <= |now.log.value|
    ensures now.ring.Contents() == now.log.value[|now.log.value| - now.ring.len..]
  {
    SuffixOfLog(base, Flatten(now.kernel.shown), now.ring.Contents());
  }

  /** Without such lines the ring always holds a suffix of the log. */
  lemma RingIsSuffixOfLog(w: World, es: seq<Event>, base: seq<byte>)
    requires Inv(w) && Legal(w, es) && w.log == Some(base) && w.kernel.shown == [] && Warnings(es) == 0
    ensures
      var now := After(w, es);
      && now.log.Some? && now.ring.Valid() && now.ring.len <= |now.log.value|
      && now.ring.Contents() == now.log.value[|now.log.value| - now.ring.len..]
  {
    LogIsOutput(w, es, base);
    RunKeeps(w, es);
    TailIsSuffix(After(w, es), base);
  }
}
