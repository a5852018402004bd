/** Everything a client receives that attaches and detaches any number of times. */
module Episodes {
  import opened Bytes
  import opened KernelModel
  import opened ScrollbackRing
  import opened DaemonModel
  import opened DaemonSafety
  import opened ClientView
  import opened Attachment
  import opened Delivery

  /** One attachment: the ring's contents it started from, the chunks of terminal
      output since, and those among them the client heard. */
  datatype Episode = Episode(snapshot: seq<byte>, output: seq<seq<byte>>, heard: seq<seq<byte>>) {
    function Text(): seq<byte> {
      snapshot + Flatten(heard)
    }

    function Volume(): nat {
      |Flatten(output)|
    }

    function Chunk(data: seq<byte>, hears: bool): Episode {
      Episode(snapshot, output + [data], if hears then heard + [data] else heard)
    }
  }

  function Told(eps: seq<Episode>): seq<byte> {
    if eps == [] then [] else Told(eps[..|eps| - 1]) + eps[|eps| - 1].Text()
  }

  /** What a step adds to the client's history. */
  ghost function Next(ring: Ring, e: Event, f: Fd, eps: seq<Episode>): seq<Episode>
    requires ring.Valid()
  {
    if AttachesClient(e, f) then eps + [Episode(Snapshot(ring, e.got.pkt), [], [])]
    else if e.Output? && eps != [] then eps[..|eps| - 1] + [eps[|eps| - 1].Chunk(e.data, Hears(e, f))]
    else eps
  }

  ghost function History(w: World, es: seq<Event>, f: Fd): seq<Episode>
    requires Legal(w, es)
    decreases |es|
  {
    if es == [] then []
    else
      var before := es[..|es| - 1];
      Next(After(w, before).ring, es[|es| - 1], f, History(w, before, f))
  }

  /** Whenever a replay makes progress, the output since its Attach and the rest of it
      still fit in the ring together. */
  ghost predicate AllInTime(w: World, es: seq<Event>, f: Fd)
    requires Legal(w, es) && Stays(w, es, f)
    decreases |es|
  {
    es == [] ||
    (var before, e := es[..|es| - 1], es[|es| - 1];
     && AllInTime(w, before, f)
     && (Drains(e, f) && e.n > 0 ==> ReplayInTime(History(w, before, f), Rec(After(w, before), f))))
  }

  predicate ReplayInTime(eps: seq<Episode>, c: Client) {
    eps != [] && eps[|eps| - 1].Volume() + c.replayRemaining <= SCROLLBACK_SIZE
  }

  /** A client whose last word was an Attach is on the schedule of its last episode;
      another is silent and was told all of every episode. */
  ghost predicate Status(ring: Ring, c: Client, sent: seq<byte>, pre: seq<byte>, eps: seq<Episode>, word: bool) {
    if word then
      && eps != []
      && var ep := eps[|eps| - 1];
         OnSchedule(ring, c, sent, pre + Told(eps[..|eps| - 1]), ep.snapshot, ep.Volume(), ep.heard)
    else
      Silent(c) && sent == pre + Told(eps)
  }

  ghost predicate ClientStatus(w: World, f: Fd, pre: seq<byte>, eps: seq<Episode>, word: bool)
    requires Listed(w, f)
  {
    Status(w.ring, Rec(w, f), SentTo(w, f), pre, eps, word)
  }

  lemma ToldSnoc(eps: seq<Episode>, ep: Episode)
    ensures (eps + [ep])[..|eps|] == eps
    ensures Told(eps + [ep]) == Told(eps) + ep.Text()
  {
    assert (eps + [ep])[..|eps|] == eps;
  }

  /** The last episode told in full completes the story. */
  lemma ToldToTheEnd(pre: seq<byte>, eps: seq<Episode>)
    requires eps != []
    ensures
      var ep := eps[|eps| - 1];
      pre + Told(eps[..|eps| - 1]) + ep.snapshot + Flatten(ep.heard) == pre + Told(eps)
  {
    var ep, before := eps[|eps| - 1], Told(eps[..|eps| - 1]);
    Regroup(pre + before, ep.snapshot, Flatten(ep.heard));
    Regroup(pre, before, ep.Text());
  }

  lemma UnheardIsUntold(eps: seq<Episode>, data: seq<byte>)
    requires eps != []
    ensures Told(eps[..|eps| - 1] + [eps[|eps| - 1].Chunk(data, false)]) == Told(eps)
  {
    ToldSnoc(eps[..|eps| - 1], eps[|eps| - 1].Chunk(data, false));
  }

  lemma AttachStep(w: World, e: Event, w': World, f: Fd, pre: seq<byte>, eps: seq<Episode>)
    requires Moves(w, e, w', f) && AttachesClient(e, f) && ClientStatus(w, f, pre, eps, false)
    ensures ClientStatus(w', f, pre, Next(w.ring, e, f, eps), true)
  {
    AttachStartsOnSchedule(w.ring, Rec(w, f), e, SentTo(w, f));
    ToldSnoc(eps, Episode(Snapshot(w.ring, e.got.pkt), [], []));
  }

  lemma DetachStep(w: World, e: Event, w': World, f: Fd, pre: seq<byte>, eps: seq<Episode>)
    requires Moves(w, e, w', f) && DetachesClient(e, f) && ClientStatus(w, f, pre, eps, true)
    requires Rec(w, f).replayRemaining == 0
    ensures ClientStatus(w', f, pre, Next(w.ring, e, f, eps), false)
  {
    var ep, before := eps[|eps| - 1], Told(eps[..|eps| - 1]);
    ScheduleRead(Rec(w, f), SentTo(w, f), pre + before, ep.snapshot, ep.Volume(), ep.heard, w.ring);
    ToldToTheEnd(pre, eps);
    assert BytesTo(w.ring, Rec(w, f), e) == [];
    assert SentTo(w, f) + [] == SentTo(w, f);
  }

  /** Only the last episode changes. */
  lemma LastEpisodeGrows(ring: Ring, e: Event, f: Fd, eps: seq<Episode>)
    requires ring.Valid() && eps != [] && !AttachesClient(e, f)
    ensures
      var next, ep := Next(ring, e, f, eps), eps[|eps| - 1];
      var ep' := if e.Output? then ep.Chunk(e.data, Hears(e, f)) else ep;
      && next == eps[..|eps| - 1] + [ep']
      && ep'.snapshot == ep.snapshot && ep'.heard == (if Hears(e, f) then ep.heard + [e.data] else ep.heard)
      && ep'.Volume() == if e.Output? then ep.Volume() + |e.data| else ep.Volume()
  {
    if e.Output? {
      FlattenSnoc(eps[|eps| - 1].output, e.data);
    }
  }

  lemma AttachedStep(w: World, e: Event, w': World, f: Fd, pre: seq<byte>, eps: seq<Episode>)
    requires Moves(w, e, w', f) && !AttachesClient(e, f) && !DetachesClient(e, f) && ClientStatus(w, f, pre, eps, true)
    requires Drains(e, f) && e.n > 0 ==> ReplayInTime(eps, Rec(w, f))
    ensures ClientStatus(w', f, pre, Next(w.ring, e, f, eps), true)
  {
    var before, ep := eps[..|eps| - 1], eps[|eps| - 1];
    var ep' := if e.Output? then ep.Chunk(e.data, Hears(e, f)) else ep;
    LastEpisodeGrows(w.ring, e, f, eps);
    ToldSnoc(before, ep');
    assert ClientOnSchedule(w, f, pre + Told(before), ep.snapshot, ep.Volume(), ep.heard);
    StepStaysOnSchedule(w, e, w', f, pre + Told(before), ep.snapshot, ep.Volume(), ep.heard, ep'.Volume(), ep'.heard);
  }

  lemma SilentStep(w: World, e: Event, w': World, f: Fd, pre: seq<byte>, eps: seq<Episode>)
    requires Moves(w, e, w', f) && !AttachesClient(e, f) && ClientStatus(w, f, pre, eps, false)
    ensures ClientStatus(w', f, pre, Next(w.ring, e, f, eps), false)
  {
    SilenceMoves(w, e, w', f);
    if e.Output? && eps != [] {
      UnheardIsUntold(eps, e.data);
    }
  }

  ghost predicate AllSubsequences(eps: seq<Episode>) {
    forall ep <- eps :: IsSubsequence(ep.heard, ep.output)
  }

  lemma SubsequenceGrows(picked: seq<seq<byte>>, all: seq<seq<byte>>, x: seq<byte>)
    requires IsSubsequence(picked, all)
    ensures IsSubsequence(picked, all + [x]) && IsSubsequence(picked + [x], all + [x])
  {
    assert (all + [x])[..|all|] == all && (picked + [x])[..|picked|] == picked;
  }

  lemma NextIsSubsequences(ring: Ring, e: Event, f: Fd, eps: seq<Episode>)
    requires ring.Valid() && AllSubsequences(eps)
    ensures AllSubsequences(Next(ring, e, f, eps))
  {
    var eps' := Next(ring, e, f, eps);
    if !AttachesClient(e, f) && e.Output? && eps != [] {
      var ep := eps[|eps| - 1];
      SubsequenceGrows(ep.heard, ep.output, e.data);
      forall x <- eps' ensures IsSubsequence(x.heard, x.output) {
        if x in eps[..|eps| - 1] {
          assert x in eps;
        }
      }
    }
  }

  lemma {:induction false} HistoryIsSubsequences(w: World, es: seq<Event>, f: Fd)
    requires Inv(w) && Legal(w, es)
    ensures AllSubsequences(History(w, es, f))
  {
    if es == [] {
    } else {
      var before := es[..|es| - 1];
      HistoryIsSubsequences(w, before, f);
      NextIsSubsequences(After(w, before).ring, es[|es| - 1], f, History(w, before, f));
    }
  }

  lemma {:induction false} RunKeepsStatus(w: World, es: seq<Event>, f: Fd)
    requires Inv(w) && Legal(w, es) && Stays(w, es, f) && Listed(w, f) && Silent(Rec(w, f))
    requires TakesTurns(es, f) && DetachesAfterReplay(w, es, f) && AllInTime(w, es, f)
    ensures ClientStatus(After(w, es), f, SentTo(w, f), History(w, es, f), LastWordIsAttach(es, f))
  {
    if es == [] {
      assert SentTo(w, f) + [] == SentTo(w, f);
    } else {
      var before, e, pre := es[..|es| - 1], es[|es| - 1], SentTo(w, f);
      RunKeepsStatus(w, before, f);
      LastStep(w, es, f);
      StatusStep(After(w, before), e, After(w, es), f, pre, History(w, before, f), LastWordIsAttach(before, f));
    }
  }

  lemma StatusStep(w: World, e: Event, w': World, f: Fd, pre: seq<byte>, eps: seq<Episode>, word: bool)
    requires Moves(w, e, w', f) && ClientStatus(w, f, pre, eps, word)
    requires AttachesClient(e, f) ==> !word
    requires DetachesClient(e, f) ==> word && Rec(w, f).replayRemaining == 0
    requires Drains(e, f) && e.n > 0 ==> ReplayInTime(eps, Rec(w, f))
    ensures ClientStatus(w', f, pre, Next(w.ring, e, f, eps),
                         AttachesClient(e, f) || (word && !DetachesClient(e, f)))
  {
    if AttachesClient(e, f) {
      AttachStep(w, e, w', f, pre, eps);
    } else if DetachesClient(e, f) {
      DetachStep(w, e, w', f, pre, eps);
    } else if word {
      AttachedStep(w, e, w', f, pre, eps);
    } else {
      SilentStep(w, e, w', f, pre, eps);
    }
  }

  /** On top of `pre` the client was told all of its episodes, of the last one perhaps
      only the snapshot without its last bytes. */
  ghost predicate ToldInTurn(c: Client, sent: seq<byte>, pre: seq<byte>, eps: seq<Episode>) {
    if c.replayRemaining == 0 then sent == pre + Told(eps)
    else
      && eps != [] && c.replayRemaining <= |eps[|eps| - 1].snapshot|
      && var s := eps[|eps| - 1].snapshot;
         sent == pre + Told(eps[..|eps| - 1]) + s[..|s| - c.replayRemaining]
  }

  lemma StatusRead(ring: Ring, c: Client, sent: seq<byte>, pre: seq<byte>, eps: seq<Episode>, word: bool)
    requires Status(ring, c, sent, pre, eps, word)
    ensures ToldInTurn(c, sent, pre, eps)
  {
    if word {
      var ep, before := eps[|eps| - 1], Told(eps[..|eps| - 1]);
      ScheduleRead(c, sent, pre + before, ep.snapshot, ep.Volume(), ep.heard, ring);
      ToldToTheEnd(pre, eps);
    }
  }

  /** Delivery over any number of attachments.  A silent client that alternates Attach
      and Detach, detaches only when its replay is over and is replayed to in time, has
      been sent, on top of what it had, for each of its attachments in turn the ring's
      contents at that Attach and then whole chunks of the output since, in order; of
      the last attachment perhaps only a part of the ring's contents so far. */
  lemma DeliveryOverAttachments(w: World, es: seq<Event>, f: Fd)
    requires Inv(w) && Legal(w, es) && Stays(w, es, f) && Listed(w, f) && Silent(Rec(w, f))
    requires TakesTurns(es, f) && DetachesAfterReplay(w, es, f) && AllInTime(w, es, f)
    ensures AllSubsequences(History(w, es, f))
    ensures ToldInTurn(Rec(After(w, es), f), SentTo(After(w, es), f), SentTo(w, f), History(w, es, f))
  {
    HistoryIsSubsequences(w, es, f);
    RunKeepsStatus(w, es, f);
    var now := After(w, es);
    StatusRead(now.ring, Rec(now, f), SentTo(now, f), SentTo(w, f), History(w, es, f), LastWordIsAttach(es, f));
  }
}
