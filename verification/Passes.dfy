/** One pass of the event loop against the system calls it made. */
module Passes {
  import opened Bytes
  import opened KernelModel
  import opened DaemonModel
  import opened Batch
  import opened FanOut
  import opened InfoReply
  import opened Turns

  /** What a pass asked of the kernel and was told, apart from its reads and writes of
      packets and replays: the select, the accept and the read of the terminal if there
      were any, the selects and writes of the fan-out, and what was told in reply to
      Info packets.  A pass is calm when no call failed transiently, and sound when
      none failed for good. */
  datatype Pass = Pass(
    asked: Selected,
    accepts: seq<Option<Connection>>,
    terminal: seq<PtyRead>,
    fan: seq<Selected>,
    calls: seq<Attempt>,
    told: seq<byte>,
    calm: bool,
    sound: bool)
  {
    predicate Smooth() {
      calm && sound
    }
  }

  ghost function PendingSet(cs: seq<Client>): set<Fd> {
    set c | c in cs && c.replayRemaining > 0 :: c.fd
  }

  /** The read of the terminal that says the child is gone. */
  predicate Ends(r: PtyRead) {
    r.answer.Failed? || r.answer == Did(0)
  }

  predicate Shows(r: PtyRead) {
    r.answer.Did? && r.answer.n > 0
  }

  // ---- the calls of a pass and its steps -----------------------------------

  /** The connection has joined with its peer's pid, or, if it cannot be made
      non-blocking, been refused. */
  predicate Admits(e: Event, c: Connection) {
    if c.nonblocking then e.Join? && e.fd == c.fd && e.pid == c.pid else e.Refuse? && e.fd == c.fd
  }

  /** One accept if the listener was readable, and its answer admitted. */
  ghost predicate AcceptOk(joins: seq<Event>, accepts: seq<Option<Connection>>, readable: bool) {
    if !readable then accepts == [] && joins == []
    else
      && |accepts| == 1
      && (accepts[0].None? <==> joins == [])
      && (accepts[0].Some? ==> Admits(joins[0], accepts[0].value))
  }

  /** One read of the terminal, of at most 4096 bytes, if it was readable; output is
      what it gave. */
  ghost predicate ReadOk(outputs: seq<Event>, rs: seq<PtyRead>, readable: bool) {
    if !readable then rs == [] && outputs == []
    else |rs| == 1 && rs[0].max == 4096 && (outputs != [] <==> Shows(rs[0]))
  }

  /** The chunk went the way of a fan-out over `cs`: its writes are the ones made, all
      of the whole chunk, nobody found writable was passed over, and it stopped when
      its last select and writes said so. */
  ghost predicate FanOk(cs: seq<Client>, outputs: seq<Event>, fan: seq<Selected>, calls: seq<Attempt>, listener: Fd) {
    if outputs == [] then fan == [] && calls == []
    else
      && outputs[0].Output?
      && var e := outputs[0];
         && e.wrote == WholeFds(calls) && e.bad == BrokenFds(calls) && AllOf(calls, e.data)
         && AllAsked(fan, listener, AttachedFds(cs), e.bad, calls)
         && (fan == [] <==> AttachedFds(cs) == {})
         && LastDecides(fan, listener, calls)
         && (fan != [] ==> Verdict(fan[|fan| - 1], listener, e.wrote, AttachedFds(cs) - e.bad).Some?)
  }

  /** The state at the moment the terminal is read. */
  ghost function AfterDrains(w: World, t: Turn): World
    requires TurnOk(w, t)
  {
    After(w, t.Batch() + t.evicts + t.drains)
  }

  /** Every readable client's packet was read and acted on in full, every Info
      answered, every writable pending replay finished. */
  ghost predicate Productive(w: World, t: Turn, told: seq<byte>, canWrite: set<Fd>)
    requires TurnOk(w, t) && Legal(w, t.joins) && Legal(After(w, t.joins), t.serves)
  {
    && told == RepliesOf(After(w, t.joins), t.serves)
    && Finished(BeforeDrains(w, t).clients, canWrite, AfterDrains(w, t).clients, |AfterDrains(w, t).clients|)
  }

  /** The turn `t` is the answer to the pass `p`: it asked about the listener, the
      terminal, every client and every pending replay; if that was ready the turn
      attends to exactly what was, and otherwise to nothing. */
  ghost predicate PassOk(w: World, t: Turn, p: Pass, listener: Fd, pty: Fd)
    requires TurnOk(w, t)
  {
    var s := p.asked;
    && s.readers == {listener, pty} + Fds(w.clients) && s.writers == PendingSet(w.clients)
    && AcceptOk(t.joins, p.accepts, listener in s.canRead)
    && ReadOk(t.outputs, p.terminal, pty in s.canRead)
    && FanOk(AfterDrains(w, t).clients, t.outputs, p.fan, p.calls, listener)
    && (if s.result.Ready? then
          && Attends(w, t, s.canRead, s.canWrite)
          && AllComplete(After(w, t.joins).kernel, After(w, t.joins).ring, t.serves, p.calm, p.sound)
          && (p.Smooth() ==> Productive(w, t, p.told, s.canWrite))
        else
          t == IDLE && s.canRead == {})
  }

  /** The pass was the last: its select failed, or the child was found gone. */
  predicate PassEnds(p: Pass) {
    p.asked.result.SelectFailed? || (p.terminal != [] && Ends(p.terminal[0]))
  }

  predicate Stopped(ps: seq<Pass>) {
    ps != [] && PassEnds(ps[|ps| - 1])
  }

  lemma IdlePass(w: World, p: Pass, listener: Fd, pty: Fd)
    requires !w.evict && !p.asked.result.Ready? && p.asked.canRead == {}
    requires p.asked.readers == {listener, pty} + Fds(w.clients) && p.asked.writers == PendingSet(w.clients)
    requires p.accepts == [] && p.terminal == [] && p.fan == [] && p.calls == [] && p.told == []
    ensures Passed(w, w, IDLE, p, listener, pty)
  {
    IdleTurnOk(w);
  }

  /** Accepting and serving led from `w` by way of `w1` to `w2`: a batch has its turns. */
  ghost predicate Served(w: World, w1: World, w2: World, joins: seq<Event>, serves: seq<Event>,
                         accepts: seq<Option<Connection>>, canRead: set<Fd>, listener: Fd) {
    && Leads(w, joins, w1) && Leads(w1, serves, w2)
    && JoinsOnly(joins) && AcceptOk(joins, accepts, listener in canRead)
    && ServesOnly(serves) && NoDup(ServedFds(serves))
    && (forall f :: f in ServedFds(serves) <==> f in canRead && f in Fds(w1.clients))
  }

  ghost predicate EvictedIfAsked(w: World, evicts: seq<Event>, w': World) {
    Leads(w, evicts, w') && evicts == if w.evict then [Evict] else []
  }

  /** Accepting, serving, evicting and replaying led from `w` by way of `w1`, `w2` and
      `w3` to `w4`, and did all there was to do unless a call failed. */
  ghost predicate Attended(w: World, w1: World, w2: World, w3: World, w4: World, t: Turn,
                           accepts: seq<Option<Connection>>, told: seq<byte>, canRead: set<Fd>, canWrite: set<Fd>,
                           listener: Fd, calm: bool, sound: bool) {
    && Served(w, w1, w2, t.joins, t.serves, accepts, canRead, listener)
    && EvictedIfAsked(w2, t.evicts, w3)
    && Leads(w3, t.drains, w4) && DrainsOnly(t.drains) && DrainedFds(t.drains) == PendingFds(w3.clients, canWrite)
    && AllComplete(w1.kernel, w1.ring, t.serves, calm, sound)
    && (calm && sound ==> told == RepliesOf(w1, t.serves) && Finished(w3.clients, canWrite, w4.clients, |w4.clients|))
  }

  /** The five phases of a pass, and what each says of its calls, make a pass. */
  lemma PassDone(w: World, t: Turn, p: Pass, w1: World, w2: World, w3: World, w4: World, w5: World,
                 listener: Fd, pty: Fd, calm: bool, sound: bool)
    requires Attended(w, w1, w2, w3, w4, t, p.accepts, p.told, p.asked.canRead, p.asked.canWrite, listener, calm, sound)
    requires (p.calm ==> calm) && (p.sound ==> sound)
    requires Leads(w4, t.outputs, w5)
    requires OutputsOnly(t.outputs) && ReadOk(t.outputs, p.terminal, pty in p.asked.canRead)
    requires FanOk(w4.clients, t.outputs, p.fan, p.calls, listener)
    requires p.asked.readers == {listener, pty} + Fds(w.clients) && p.asked.writers == PendingSet(w.clients)
    requires p.asked.result.Ready?
    ensures Passed(w, w5, t, p, listener, pty)
  {
    TurnDone(w, t, w1, w2, w3, w4, w5, p.asked.canRead, p.asked.canWrite);
    PhasesLead(w, t, w1, w2, w3, w4, w5);
    CompleteStays(w1.kernel, w1.ring, t.serves, calm, sound, p.calm, p.sound);
  }

  // ---- runs of passes ------------------------------------------------------

  ghost predicate PassesOk(w: World, ts: seq<Turn>, ps: seq<Pass>, listener: Fd, pty: Fd)
    requires TurnsOk(w, ts)
    decreases |ts|
  {
    if ts == [] then ps == []
    else
      && |ps| == |ts|
      && PassesOk(w, ts[..|ts| - 1], ps[..|ps| - 1], listener, pty)
      && !Stopped(ps[..|ps| - 1])
      && PassOk(AfterTurns(w, ts[..|ts| - 1]), ts[|ts| - 1], ps[|ps| - 1], listener, pty)
  }

  /** All selects, accepts and reads of the terminal a run of passes made, in order. */
  function SelectsOf(ps: seq<Pass>): seq<Selected> {
    if ps == [] then [] else SelectsOf(ps[..|ps| - 1]) + ([ps[|ps| - 1].asked] + ps[|ps| - 1].fan)
  }

  function AcceptsOf(ps: seq<Pass>): seq<Option<Connection>> {
    if ps == [] then [] else AcceptsOf(ps[..|ps| - 1]) + ps[|ps| - 1].accepts
  }

  function ReadsOf(ps: seq<Pass>): seq<PtyRead> {
    if ps == [] then [] else ReadsOf(ps[..|ps| - 1]) + ps[|ps| - 1].terminal
  }

  lemma PassesSnoc(w: World, ts: seq<Turn>, ps: seq<Pass>, t: Turn, p: Pass, listener: Fd, pty: Fd)
    requires TurnsOk(w, ts) && PassesOk(w, ts, ps, listener, pty) && !Stopped(ps) && TurnsOk(w, ts + [t])
    requires TurnOk(AfterTurns(w, ts), t) && PassOk(AfterTurns(w, ts), t, p, listener, pty)
    ensures PassesOk(w, ts + [t], ps + [p], listener, pty)
  {
    assert (ts + [t])[..|ts|] == ts && (ps + [p])[..|ps|] == ps;
  }

  function RepliesIn(ps: seq<Pass>): seq<byte> {
    if ps == [] then [] else RepliesIn(ps[..|ps| - 1]) + ps[|ps| - 1].told
  }

  /** One pass on top of those made so far. */
  lemma PassesGoOn(w: World, v: World, w': World, ts: seq<Turn>, ps: seq<Pass>, t: Turn, p: Pass, listener: Fd, pty: Fd)
    requires PassedAll(w, v, ts, ps, listener, pty) && !Stopped(ps)
    requires Passed(v, w', t, p, listener, pty)
    ensures PassedAll(w, w', ts + [t], ps + [p], listener, pty)
  {
    TurnsSnoc(w, ts, t);
    PassesSnoc(w, ts, ps, t, p, listener, pty);
  }

  lemma CallsSnoc(ps: seq<Pass>, p: Pass)
    ensures SelectsOf(ps + [p]) == SelectsOf(ps) + ([p.asked] + p.fan)
    ensures AcceptsOf(ps + [p]) == AcceptsOf(ps) + p.accepts
    ensures ReadsOf(ps + [p]) == ReadsOf(ps) + p.terminal
    ensures RepliesIn(ps + [p]) == RepliesIn(ps) + p.told
  {
    assert (ps + [p])[..|ps|] == ps;
  }

  /** The input pushed by the packets of a run of turns. */
  function OffersOfTurns(ts: seq<Turn>): seq<PtyInput> {
    if ts == [] then [] else OffersOfTurns(ts[..|ts| - 1]) + OffersOf(ts[|ts| - 1].serves)
  }

  function RedrawsInTurns(ts: seq<Turn>): nat {
    if ts == [] then 0 else RedrawsInTurns(ts[..|ts| - 1]) + RedrawsIn(ts[|ts| - 1].serves)
  }

  /** What the kernel was asked so far: every select, accept and read of the terminal,
      the input pushed, the redraws asked for, the replies given and the writes made;
      how many transients are still to come, and how many calls have failed. */
  datatype Trace = Trace(
    selects: seq<Selected>,
    accepts: seq<Option<Connection>>,
    terminal: seq<PtyRead>,
    pushed: seq<PtyInput>,
    redraws: nat,
    told: seq<byte>,
    writes: seq<Attempt>,
    transients: nat,
    failures: nat)

  ghost predicate Since(a: Trace, b: Trace) {
    b.transients <= a.transients && a.failures <= b.failures
  }

  predicate Calm(a: Trace, b: Trace) {
    a.transients == b.transients
  }

  predicate Sound(a: Trace, b: Trace) {
    a.failures == b.failures
  }

  /** From `a` to `b` only accepts, pushed input and writes of packets' answers. */
  ghost predicate TracedServing(a: Trace, b: Trace, accepts: seq<Option<Connection>>, serves: seq<Event>,
                                told: seq<byte>) {
    && b == Trace(a.selects, a.accepts + accepts, a.terminal, a.pushed + OffersOf(serves),
                  a.redraws + RedrawsIn(serves), a.told + told, b.writes, b.transients, b.failures)
    && Since(a, b)
  }

  /** From `a` to `b` only a read of the terminal and a fan-out. */
  ghost predicate TracedOutput(a: Trace, b: Trace, rs: seq<PtyRead>, fan: seq<Selected>, calls: seq<Attempt>) {
    && b == Trace(a.selects + fan, a.accepts, a.terminal + rs, a.pushed, a.redraws, a.told, a.writes + calls,
                  b.transients, b.failures)
    && Since(a, b)
  }

  lemma ServingTraced(a: Trace, b: Trace, c: Trace, accepts: seq<Option<Connection>>, serves: seq<Event>,
                      told: seq<byte>)
    requires b == a.(accepts := a.accepts + accepts) && TracedServing(b, c, [], serves, told)
    ensures TracedServing(a, c, accepts, serves, told)
  {
  }

  /** A read of the terminal, and then the fan-out of what it gave. */
  lemma OutputTraced(a: Trace, b: Trace, c: Trace, r: PtyRead, fan: seq<Selected>, calls: seq<Attempt>)
    requires b == a.(terminal := a.terminal + [r], transients := b.transients) && Since(a, b)
    requires TracedOutput(b, c, [], fan, calls)
    ensures TracedOutput(a, c, [r], fan, calls)
  {
    assert b.terminal + [] == b.terminal;
  }

  lemma FanTraced(a: Trace, b: Trace, fan: seq<Selected>, calls: seq<Attempt>)
    requires b == a.(selects := a.selects + fan, writes := a.writes + calls,
                     transients := b.transients, failures := b.failures)
    requires Since(a, b)
    ensures TracedOutput(a, b, [], fan, calls)
  {
    assert a.terminal + [] == a.terminal && a.selects + [] == a.selects && a.writes + [] == a.writes;
  }

  /** Replays are writes and nothing else. */
  lemma ReplayTraced(a: Trace, b: Trace, c: Trace, accepts: seq<Option<Connection>>, serves: seq<Event>,
                     told: seq<byte>)
    requires TracedServing(a, b, accepts, serves, told)
    requires c == b.(writes := c.writes, transients := c.transients, failures := c.failures) && Since(b, c)
    ensures TracedServing(a, c, accepts, serves, told)
  {
  }

  lemma TraceDone(a: Trace, a1: Trace, b: Trace, c: Trace, t: Turn, p: Pass)
    requires a1 == a.(selects := a.selects + [p.asked], transients := a1.transients) && Since(a, a1)
    requires TracedServing(a1, b, p.accepts, t.serves, p.told)
    requires TracedOutput(b, c, p.terminal, p.fan, p.calls)
    requires (Calm(a, c) ==> p.calm) && (Sound(a, c) ==> p.sound)
    ensures Traced(a, c, t, p)
  {
    Regroup(a.selects, [p.asked], p.fan);
  }

  /** The calls made from `a` to `b` are those of the pass `p`, and what was pushed is
      what the packets of the turn `t` asked for. */
  ghost predicate Traced(a: Trace, b: Trace, t: Turn, p: Pass) {
    && b.selects == a.selects + ([p.asked] + p.fan)
    && b.accepts == a.accepts + p.accepts && b.terminal == a.terminal + p.terminal
    && b.pushed == a.pushed + OffersOf(t.serves) && b.redraws == a.redraws + RedrawsIn(t.serves)
    && b.told == a.told + p.told
    && |p.calls| <= |b.writes| && b.writes[|b.writes| - |p.calls|..] == p.calls
    && Since(a, b) && (Calm(a, b) ==> p.calm) && (Sound(a, b) ==> p.sound)
  }

  ghost predicate TracedAll(a: Trace, b: Trace, ts: seq<Turn>, ps: seq<Pass>) {
    && b.selects == a.selects + SelectsOf(ps)
    && b.accepts == a.accepts + AcceptsOf(ps) && b.terminal == a.terminal + ReadsOf(ps)
    && b.pushed == a.pushed + OffersOfTurns(ts) && b.redraws == a.redraws + RedrawsInTurns(ts)
    && b.told == a.told + RepliesIn(ps)
    && Since(a, b) && (Calm(a, b) ==> forall p <- ps :: p.calm) && (Sound(a, b) ==> forall p <- ps :: p.sound)
  }

  /** One pass led from `w` to `w'`. */
  ghost predicate Passed(w: World, w': World, t: Turn, p: Pass, listener: Fd, pty: Fd) {
    TurnOk(w, t) && After(w, t.Steps()) == w' && PassOk(w, t, p, listener, pty)
  }

  /** ... and so did these, of which none but the last may have ended the session. */
  ghost predicate PassedAll(w: World, w': World, ts: seq<Turn>, ps: seq<Pass>, listener: Fd, pty: Fd) {
    TurnsOk(w, ts) && AfterTurns(w, ts) == w' && PassesOk(w, ts, ps, listener, pty)
  }

  lemma TraceStarts(a: Trace)
    ensures TracedAll(a, a, [], [])
  {
  }

  lemma TraceGrows(a: Trace, b: Trace, c: Trace, ts: seq<Turn>, ps: seq<Pass>, t: Turn, p: Pass)
    requires TracedAll(a, b, ts, ps) && Traced(b, c, t, p)
    ensures TracedAll(a, c, ts + [t], ps + [p])
  {
    CallsSnoc(ps, p);
    OffersOfTurnsSnoc(ts, t);
    Regroup(a.selects, SelectsOf(ps), [p.asked] + p.fan);
    Regroup(a.accepts, AcceptsOf(ps), p.accepts);
    Regroup(a.terminal, ReadsOf(ps), p.terminal);
    Regroup(a.pushed, OffersOfTurns(ts), OffersOf(t.serves));
    Regroup(a.told, RepliesIn(ps), p.told);
  }

  lemma OffersOfTurnsSnoc(ts: seq<Turn>, t: Turn)
    ensures OffersOfTurns(ts + [t]) == OffersOfTurns(ts) + OffersOf(t.serves)
    ensures RedrawsInTurns(ts + [t]) == RedrawsInTurns(ts) + RedrawsIn(t.serves)
  {
    assert (ts + [t])[..|ts|] == ts;
  }
}
