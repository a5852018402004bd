/** Exactly which bytes an attaching client receives over a whole run. */
module Delivery {
  import opened Bytes
  import opened KernelModel
  import opened ScrollbackRing
  import opened Protocol
  import opened DaemonModel
  import opened DaemonSafety
  import opened ClientView
  import opened Attachment

  /** The chunks of terminal output read during `es`. */
  function Chunks(es: seq<Event>): seq<seq<byte>> {
    if es == [] then []
    else Chunks(es[..|es| - 1]) + (if es[|es| - 1].Output? then [es[|es| - 1].data] else [])
  }

  /** The chunks among them that reached client `f`. */
  function Heard(es: seq<Event>, f: Fd): seq<seq<byte>> {
    if es == [] then []
    else Heard(es[..|es| - 1], f) + (if Hears(es[|es| - 1], f) then [es[|es| - 1].data] else [])
  }

  lemma {:induction false} HeardIsSubsequence(es: seq<Event>, f: Fd)
    ensures IsSubsequence(Heard(es, f), Chunks(es))
  {
    if es == [] {
    } else {
      var before, e := es[..|es| - 1], es[|es| - 1];
      HeardIsSubsequence(before, f);
      if e.Output? {
        assert Chunks(es)[..|Chunks(es)| - 1] == Chunks(before);
        if Hears(e, f) {
          assert Heard(es, f)[..|Heard(es, f)| - 1] == Heard(before, f);
        } else {
          assert Heard(es, f) == Heard(before, f);
        }
      } else {
        assert Chunks(es) == Chunks(before) && Heard(es, f) == Heard(before, f);
      }
    }
  }

  /** How much output came during `es`. */
  function Volume(es: seq<Event>): nat {
    if es == [] then 0
    else Volume(es[..|es| - 1]) + (if es[|es| - 1].Output? then |es[|es| - 1].data| else 0)
  }

  lemma ChunksSnoc(before: seq<Event>, e: Event, f: Fd)
    ensures Heard(before + [e], f) == if Hears(e, f) then Heard(before, f) + [e.data] else Heard(before, f)
    ensures Volume(before + [e]) == if e.Output? then Volume(before) + |e.data| else Volume(before)
  {
    assert (before + [e])[..|before|] == before;
  }

  /** Whenever the client's replay makes progress, the output since the attach and
      the rest of the replay still fit in the ring together. */
  ghost predicate InTime(w: World, es: seq<Event>, f: Fd)
    requires Legal(w, es) && Stays(w, es, f)
    decreases |es|
  {
    es == [] ||
    (var before, e := es[..|es| - 1], es[|es| - 1];
     && InTime(w, before, f)
     && (Drains(e, f) && e.n > 0 ==> Volume(before) + Rec(After(w, before), f).replayRemaining <= SCROLLBACK_SIZE))
  }

  /** Neither Attach nor Detach comes from the client. */
  ghost predicate Settled(es: seq<Event>, f: Fd) {
    forall e <- es :: !AttachesClient(e, f) && !DetachesClient(e, f)
  }

  /** What the client has still to be sent of its snapshot is in the ring, `k`
      bytes of newer output behind the write end. */
  ghost predicate CursorOnSnapshot(ring: Ring, c: Client, snapshot: seq<byte>, k: nat) {
    var r := c.replayRemaining;
    && ring.Valid() && r <= |snapshot| && k + r <= ring.len
    && c.replayHead == ring.Behind(k + r)
    && Slice(ring.buf, c.replayHead, r) == snapshot[|snapshot| - r..]
  }

  /** On top of `pre`, a replaying client has part of the snapshot and nothing live,
      and as long as the bound holds the rest is still intact; a live one has all
      of the snapshot and then whole chunks. */
  ghost predicate OnSchedule(ring: Ring, c: Client, sent: seq<byte>, pre: seq<byte>, snapshot: seq<byte>,
                             k: nat, heard: seq<seq<byte>>) {
    var r := c.replayRemaining;
    && r <= |snapshot|
    && (c.attached <==> r == 0)
    && (r > 0 ==> heard == [])
    && sent == pre + snapshot[..|snapshot| - r] + Flatten(heard)
    && (r > 0 && k + r <= SCROLLBACK_SIZE ==> CursorOnSnapshot(ring, c, snapshot, k))
  }

  /** The snapshot an Attach starts from. */
  ghost function Snapshot(ring: Ring, pkt: Packet): seq<byte>
    requires ring.Valid()
  {
    if WantsReplay(ring, pkt) then ring.Contents() else []
  }

  lemma AttachStartsOnSchedule(ring: Ring, c: Client, e: Event, pre: seq<byte>)
    requires ring.Valid() && Silent(c) && AttachesClient(e, c.fd) && Fits(ring, c, e)
    ensures OnSchedule(ring, RecAfter(ring, c, e), pre + BytesTo(ring, c, e), pre, Snapshot(ring, e.got.pkt), 0, [])
  {
    var s := Snapshot(ring, e.got.pkt);
    if WantsReplay(ring, e.got.pkt) {
      SliceDrop(ring.buf, ring.head, ring.len, e.n);
      assert s[|s| - (ring.len - e.n)..] == s[e.n..];
    }
    assert pre + BytesTo(ring, c, e) + [] == pre + BytesTo(ring, c, e);
  }

  lemma OutputStaysOnSchedule(ring: Ring, c: Client, sent: seq<byte>, e: Event, pre: seq<byte>, s: seq<byte>,
                              k: nat, heard: seq<seq<byte>>)
    requires ring.Valid() && e.Output? && (Hears(e, c.fd) ==> c.attached)
    requires OnSchedule(ring, c, sent, pre, s, k, heard)
    ensures OnSchedule(Appended(ring, e.data), c, sent + BytesTo(ring, c, e), pre, s, k + |e.data|,
                       if Hears(e, c.fd) then heard + [e.data] else heard)
  {
    var r := c.replayRemaining;
    if Hears(e, c.fd) {
      FlattenSnoc(heard, e.data);
    }
    if r > 0 && k + |e.data| + r <= SCROLLBACK_SIZE {
      CursorAfterAppend(ring, e.data, k + r);
      WindowSurvives(ring, e.data, k + r, r);
    }
  }

  /** Taking `n` more bytes of the last `r`. */
  lemma TailTaken(s: seq<byte>, r: nat, n: nat)
    requires n <= r <= |s|
    ensures s[..|s| - r] + s[|s| - r..][..n] == s[..|s| - (r - n)]
    ensures s[|s| - r..][n..] == s[|s| - (r - n)..]
  {
  }

  lemma DrainKeepsCursor(ring: Ring, c: Client, s: seq<byte>, k: nat, n: nat)
    requires CursorOnSnapshot(ring, c, s, k) && n <= c.replayRemaining
    requires c.replayRemaining <= SCROLLBACK_SIZE && c.replayHead < SCROLLBACK_SIZE
    ensures CursorOnSnapshot(ring, DrainAnswer(c, n), s, k)
  {
    var r := c.replayRemaining;
    CursorAfterDrain(ring, k + r, n);
    RestOfSlice(ring.buf, c.replayHead, r, n, s[|s| - r..]);
    assert s[|s| - r..][n..] == s[|s| - (r - n)..];
  }

  /** If a slice is `t`, its parts are the parts of `t`. */
  lemma RestOfSlice(buf: seq<byte>, from: nat, r: nat, n: nat, t: seq<byte>)
    requires |buf| == SCROLLBACK_SIZE && from < SCROLLBACK_SIZE && n <= r <= SCROLLBACK_SIZE
    requires Slice(buf, from, r) == t
    ensures Slice(buf, from, n) == t[..n] && Slice(buf, Wrap(from + n), r - n) == t[n..]
  {
    SliceDrop(buf, from, r, n);
  }

  lemma DrainAddsPart(pre: seq<byte>, s: seq<byte>, r: nat, n: nat)
    requires n <= r <= |s|
    ensures pre + s[..|s| - r] + s[|s| - r..][..n] == pre + s[..|s| - (r - n)]
  {
    TailTaken(s, r, n);
    Regroup(pre, s[..|s| - r], s[|s| - r..][..n]);
  }

  lemma DrainStaysOnSchedule(ring: Ring, c: Client, sent: seq<byte>, e: Event, pre: seq<byte>, s: seq<byte>, k: nat)
    requires ring.Valid() && Drains(e, c.fd) && Fits(ring, c, e) && c.replayRemaining > 0
    requires OnSchedule(ring, c, sent, pre, s, k, []) && k + c.replayRemaining <= SCROLLBACK_SIZE
    ensures OnSchedule(ring, RecAfter(ring, c, e), sent + BytesTo(ring, c, e), pre, s, k, [])
  {
    DrainKeepsCursor(ring, c, s, k, e.n);
    RestOfSlice(ring.buf, c.replayHead, c.replayRemaining, e.n, s[|s| - c.replayRemaining..]);
    DrainAddsPart(pre, s, c.replayRemaining, e.n);
    assert sent == pre + s[..|s| - c.replayRemaining];
  }

  lemma OtherStepsStayOnSchedule(ring: Ring, c: Client, sent: seq<byte>, e: Event, pre: seq<byte>, s: seq<byte>,
                                 k: nat, heard: seq<seq<byte>>)
    requires ring.Valid() && Fits(ring, c, e) && !e.Output?
    requires Drains(e, c.fd) ==> e.n == 0 && c.replayRemaining > 0
    requires !AttachesClient(e, c.fd) && !DetachesClient(e, c.fd)
    requires OnSchedule(ring, c, sent, pre, s, k, heard)
    ensures OnSchedule(ring, RecAfter(ring, c, e), sent + BytesTo(ring, c, e), pre, s, k, heard)
  {
    assert sent + [] == sent;
  }

  ghost predicate ClientOnSchedule(w: World, f: Fd, pre: seq<byte>, s: seq<byte>, k: nat, heard: seq<seq<byte>>)
    requires Listed(w, f)
  {
    OnSchedule(w.ring, Rec(w, f), SentTo(w, f), pre, s, k, heard)
  }

  lemma StepStaysOnSchedule(w: World, e: Event, w': World, f: Fd, pre: seq<byte>, s: seq<byte>,
                            k: nat, heard: seq<seq<byte>>, k': nat, heard': seq<seq<byte>>)
    requires Moves(w, e, w', f) && !AttachesClient(e, f) && !DetachesClient(e, f)
    requires ClientOnSchedule(w, f, pre, s, k, heard)
    requires Drains(e, f) && e.n > 0 ==> k + Rec(w, f).replayRemaining <= SCROLLBACK_SIZE
    requires k' == if e.Output? then k + |e.data| else k
    requires heard' == if Hears(e, f) then heard + [e.data] else heard
    ensures ClientOnSchedule(w', f, pre, s, k', heard')
  {
    var c := Rec(w, f);
    if e.Output? {
      OutputStaysOnSchedule(w.ring, c, SentTo(w, f), e, pre, s, k, heard);
    } else if Drains(e, f) && e.n > 0 {
      DrainStaysOnSchedule(w.ring, c, SentTo(w, f), e, pre, s, k);
    } else {
      OtherStepsStayOnSchedule(w.ring, c, SentTo(w, f), e, pre, s, k, heard);
    }
  }

  lemma ScheduleGoesOn(w: World, before: seq<Event>, e: Event, w': World, f: Fd, pre: seq<byte>, s: seq<byte>)
    requires Moves(w, e, w', f) && !AttachesClient(e, f) && !DetachesClient(e, f)
    requires ClientOnSchedule(w, f, pre, s, Volume(before), Heard(before, f))
    requires Drains(e, f) && e.n > 0 ==> Volume(before) + Rec(w, f).replayRemaining <= SCROLLBACK_SIZE
    ensures ClientOnSchedule(w', f, pre, s, Volume(before + [e]), Heard(before + [e], f))
  {
    ChunksSnoc(before, e, f);
    StepStaysOnSchedule(w, e, w', f, pre, s,
                        Volume(before), Heard(before, f), Volume(before + [e]), Heard(before + [e], f));
  }

  lemma {:induction false} RunStaysOnSchedule(w: World, es: seq<Event>, f: Fd, pre: seq<byte>, s: seq<byte>)
    requires Inv(w) && Legal(w, es) && Stays(w, es, f) && Settled(es, f) && InTime(w, es, f)
    requires Listed(w, f) && ClientOnSchedule(w, f, pre, s, 0, [])
    ensures ClientOnSchedule(After(w, es), f, pre, s, Volume(es), Heard(es, f))
  {
    if es == [] {
    } else {
      var before, e := es[..|es| - 1], es[|es| - 1];
      assert es == before + [e];
      RunStaysOnSchedule(w, before, f, pre, s);
      LastStep(w, es, f);
      ScheduleGoesOn(After(w, before), before, e, After(w, es), f, pre, s);
    }
  }

  /** On top of `pre`, a client still detached was sent the snapshot without its last
      bytes, an attached one the whole of it and then the chunks it heard. */
  ghost predicate SentInOrder(c: Client, sent: seq<byte>, pre: seq<byte>, s: seq<byte>, heard: seq<seq<byte>>) {
    && (c.attached <==> c.replayRemaining == 0)
    && (!c.attached ==> c.replayRemaining <= |s| && sent == pre + s[..|s| - c.replayRemaining])
    && (c.attached ==> sent == pre + s + Flatten(heard))
  }

  lemma ScheduleRead(c: Client, sent: seq<byte>, pre: seq<byte>, s: seq<byte>,
                     k: nat, heard: seq<seq<byte>>, ring: Ring)
    requires OnSchedule(ring, c, sent, pre, s, k, heard)
    ensures SentInOrder(c, sent, pre, s, heard)
  {
    assert s[..|s| - 0] == s;
    assert pre + s[..|s| - c.replayRemaining] + [] == pre + s[..|s| - c.replayRemaining];
  }

  /** Whole-run delivery.  A silent client's Attach is served by `attach`, and the
      client is still there after the further steps `es`, in which it says
      nothing more about attachment and every replay write is in time.  Then it
      has been sent, on top of what it had: a prefix of the ring's contents at
      the moment of the Attach; or, once attached, those contents in full and
      after them whole chunks of later output, in order. */
  lemma DeliveryTheorem(w: World, attach: Event, es: seq<Event>, f: Fd)
    requires Inv(w) && Enabled(w, attach) && AttachesClient(attach, f)
    requires Listed(w, f) && Silent(Rec(w, f)) && Listed(Apply(w, attach), f)
    requires
      var w1 := Apply(w, attach);
      Legal(w1, es) && Stays(w1, es, f) && Settled(es, f) && InTime(w1, es, f)
    ensures
      var now, s := After(Apply(w, attach), es), Snapshot(w.ring, attach.got.pkt);
      SentInOrder(Rec(now, f), SentTo(now, f), SentTo(w, f), s, Heard(es, f))
    ensures IsSubsequence(Heard(es, f), Chunks(es))
  {
    var w1, s, pre := Apply(w, attach), Snapshot(w.ring, attach.got.pkt), SentTo(w, f);
    StepKeeps(w, attach);
    StepMoves(w, attach, f);
    AttachStartsOnSchedule(w.ring, Rec(w, f), attach, pre);
    RunStaysOnSchedule(w1, es, f, pre, s);
    HeardIsSubsequence(es, f);
    ScheduleRead(Rec(After(w1, es), f), SentTo(After(w1, es), f), pre, s, Volume(es), Heard(es, f), After(w1, es).ring);
  }

  // ---- one chunk, every client ---------------------------------------------

  /** Chunk atomicity: after a fan-out a client is either gone, with its
      connection closed, or listed as before with the whole chunk or nothing
      added to its transcript; clients that are not attached are left alone. */
  lemma ChunkIsAtomic(w: World, e: Event, c: Client)
    requires Inv(w) && Enabled(w, e) && e.Output? && c in w.clients
    ensures
      var w' := Apply(w, e);
      if c.fd in e.bad then c.attached && !Listed(w', c.fd) && c.fd !in w'.kernel.sent
      else c in w'.clients && SentTo(w', c.fd) == SentTo(w, c.fd) + (if c.fd in e.wrote then e.data else [])
    ensures !c.attached ==> c in Apply(w, e).clients && SentTo(Apply(w, e), c.fd) == SentTo(w, c.fd)
  {
    WithoutIsFilter(w.clients, e.bad);
    RecIsUnique(w, c.fd, c);
    assert c.fd in w.kernel.sent;
    if c.fd in AttachedFds(w.clients) {
      AttachedIsRec(w, c.fd);
    }
    assert SentTo(w, c.fd) + [] == SentTo(w, c.fd);
  }
}
