/** One iteration of the event loop as a value, and what it does to the
    force-detach request. */
module Turns {
  import opened Bytes
  import opened KernelModel
  import opened Protocol
  import opened DaemonModel
  import opened DaemonSafety
  import opened Batch
  import opened FanOut

  ghost predicate JoinsOnly(es: seq<Event>) {
    |es| <= 1 && forall e <- es :: e.Join? || e.Refuse?
  }

  ghost predicate DrainsOnly(es: seq<Event>) {
    forall e <- es :: e.Drain?
  }

  /** Whose replays were continued, in order. */
  function DrainedFds(es: seq<Event>): seq<Fd> {
    if es == [] then []
    else DrainedFds(es[..|es| - 1]) + (if es[|es| - 1].Drain? then [es[|es| - 1].fd] else [])
  }

  /** The clients with a pending replay and a writable socket, in list order. */
  function PendingFds(cs: seq<Client>, writable: set<Fd>): seq<Fd> {
    if cs == [] then []
    else
      var c := cs[|cs| - 1];
      PendingFds(cs[..|cs| - 1], writable) + (if c.replayRemaining > 0 && c.fd in writable then [c.fd] else [])
  }

  /** The replay pass has dealt with the clients before `i`. */
  ghost predicate Draining(start: seq<Client>, writable: set<Fd>, es: seq<Event>, cs: seq<Client>, i: nat) {
    && i <= |cs| == |start| && cs[i..] == start[i..]
    && DrainsOnly(es) && DrainedFds(es) == PendingFds(start[..i], writable)
  }

  lemma DrainSkips(start: seq<Client>, writable: set<Fd>, es: seq<Event>, cs: seq<Client>, i: nat)
    requires Draining(start, writable, es, cs, i) && i < |cs| && !(cs[i].replayRemaining > 0 && cs[i].fd in writable)
    ensures Draining(start, writable, es, cs, i + 1)
  {
    assert start[..i + 1][..i] == start[..i];
    assert cs[i] == cs[i..][0] == start[i];
    assert cs[i + 1..] == cs[i..][1..] && start[i + 1..] == start[i..][1..];
  }

  /** The clients before `i` that had a replay pending and a writable socket have
      had all of it, and are attached. */
  ghost predicate Finished(start: seq<Client>, writable: set<Fd>, cs: seq<Client>, i: nat) {
    |cs| == |start| && forall j :: 0 <= j < i && j < |cs| && start[j].replayRemaining > 0 && start[j].fd in writable ==>
      cs[j].replayRemaining == 0 && cs[j].attached
  }

  lemma DrainingDone(start: seq<Client>, writable: set<Fd>, es: seq<Event>, cs: seq<Client>)
    requires Draining(start, writable, es, cs, |cs|)
    ensures DrainsOnly(es) && DrainedFds(es) == PendingFds(start, writable)
  {
    assert start[..|cs|] == start;
  }

  lemma DrainGoesOn(start: seq<Client>, writable: set<Fd>, es: seq<Event>, cs: seq<Client>,
                    i: nat, e: Event, c': Client)
    requires Draining(start, writable, es, cs, i) && i < |cs| && cs[i].replayRemaining > 0 && cs[i].fd in writable
    requires e.Drain? && e.fd == cs[i].fd
    ensures Draining(start, writable, es + [e], cs[i := c'], i + 1)
  {
    assert (es + [e])[..|es|] == es;
    assert start[..i + 1][..i] == start[..i];
    assert cs[i] == cs[i..][0] == start[i];
    assert cs[i := c'][i + 1..] == cs[i..][1..] && start[i + 1..] == start[i..][1..];
  }

  ghost predicate OutputsOnly(es: seq<Event>) {
    |es| <= 1 && forall e <- es :: e.Output?
  }

  /** The steps of one loop iteration, phase by phase. */
  datatype Turn = Turn(joins: seq<Event>, serves: seq<Event>, evicts: seq<Event>,
                       drains: seq<Event>, outputs: seq<Event>) {
    function Batch(): seq<Event> {
      joins + serves
    }

    function Steps(): seq<Event> {
      joins + serves + evicts + drains + outputs
    }
  }

  const IDLE: Turn := Turn([], [], [], [], [])

  /** The phases run in their order, a batch gives nobody two turns, and an
      eviction happens exactly when the batch asked for one. */
  ghost predicate TurnOk(w: World, t: Turn) {
    && Legal(w, t.Steps())
    && JoinsOnly(t.joins) && ServesOnly(t.serves) && NoDup(ServedFds(t.serves))
    && DrainsOnly(t.drains) && OutputsOnly(t.outputs)
    && Legal(w, t.Batch()) && Legal(w, t.Batch() + t.evicts) && Legal(w, t.Batch() + t.evicts + t.drains)
    && t.evicts == if After(w, t.Batch()).evict then [Evict] else []
  }

  /** An interrupted select does nothing. */
  lemma IdleTurnOk(w: World)
    requires !w.evict
    ensures TurnOk(w, IDLE) && After(w, IDLE.Steps()) == w
  {
    assert IDLE.Steps() == [] && IDLE.Batch() == [] && IDLE.Batch() + IDLE.evicts == [];
    assert IDLE.Batch() + IDLE.evicts + IDLE.drains == [];
  }

  ghost predicate TurnsOk(w: World, ts: seq<Turn>)
    decreases |ts|, 0
  {
    ts == [] || (TurnsOk(w, ts[..|ts| - 1]) && TurnOk(AfterTurns(w, ts[..|ts| - 1]), ts[|ts| - 1]))
  }

  ghost function AfterTurns(w: World, ts: seq<Turn>): World
    requires TurnsOk(w, ts)
    decreases |ts|, 1
  {
    if ts == [] then w else After(AfterTurns(w, ts[..|ts| - 1]), ts[|ts| - 1].Steps())
  }

  lemma TurnsSnoc(w: World, ts: seq<Turn>, t: Turn)
    requires TurnsOk(w, ts) && TurnOk(AfterTurns(w, ts), t)
    ensures TurnsOk(w, ts + [t]) && AfterTurns(w, ts + [t]) == After(AfterTurns(w, ts), t.Steps())
  {
    assert (ts + [t])[..|ts|] == ts;
  }

  // ---- a run of turns is a run of steps ------------------------------------

  function AllSteps(ts: seq<Turn>): seq<Event> {
    if ts == [] then [] else AllSteps(ts[..|ts| - 1]) + ts[|ts| - 1].Steps()
  }

  lemma {:induction false} TurnsAreRun(w: World, ts: seq<Turn>)
    requires TurnsOk(w, ts)
    ensures Legal(w, AllSteps(ts)) && After(w, AllSteps(ts)) == AfterTurns(w, ts)
  {
    if ts == [] {
    } else {
      var before, t := ts[..|ts| - 1], ts[|ts| - 1];
      TurnsAreRun(w, before);
      LegalConcat(w, AllSteps(before), t.Steps());
    }
  }

  // ---- force-detach --------------------------------------------------------

  ghost predicate AsksEviction(es: seq<Event>) {
    exists e <- es :: Carries(e, ForceDetach)
  }

  lemma FlagAfterStep(w: World, e: Event)
    requires Enabled(w, e)
    ensures Apply(w, e).evict <==> Carries(e, ForceDetach) || (w.evict && !e.Evict?)
  {
    if e.Serve? && e.got.Msg? {
      match FromU8(e.got.pkt.msgType) { case _ => }
    }
  }

  /** A batch leaves the request flag set exactly when it contained a ForceDetach. */
  lemma {:induction false} FlagAfterBatch(w: World, es: seq<Event>)
    requires Legal(w, es) && !w.evict && forall e <- es :: !e.Evict?
    ensures After(w, es).evict <==> AsksEviction(es)
  {
    if es == [] {
    } else {
      var before, e := es[..|es| - 1], es[|es| - 1];
      assert es == before + [e];
      FlagAfterBatch(w, before);
      FlagAfterStep(After(w, before), e);
      if AsksEviction(before) {
        var a :| a in before && Carries(a, ForceDetach);
        assert a in es;
      }
    }
  }

  /** Dropping the attached descriptors drops the attached clients, and no others. */
  lemma OthersAreLeft(cs: seq<Client>)
    requires DistinctFds(cs)
    ensures forall c: Client :: c in Without(cs, AttachedFds(cs)) <==> c in cs && !c.attached
    ensures IsSubsequence(Without(cs, AttachedFds(cs)), cs)
  {
    WithoutIsFilter(cs, AttachedFds(cs));
    forall j | 0 <= j < |cs| ensures cs[j].attached <==> cs[j].fd in AttachedFds(cs) {
      AttachedByFd(cs, j);
    }
  }

  /** Eviction closes and removes exactly the attached clients; the others keep
      their records and their order. */
  lemma EvictIsExact(w: World)
    requires Inv(w) && Enabled(w, Evict)
    ensures
      var w' := Apply(w, Evict);
      && (forall c: Client :: c in w'.clients <==> c in w.clients && !c.attached)
      && IsSubsequence(w'.clients, w.clients)
      && w'.kernel.sent.Keys == w.kernel.sent.Keys - AttachedFds(w.clients)
      && !w'.evict
  {
    OthersAreLeft(w.clients);
  }

  /** The state at the moment replay draining starts. */
  ghost function BeforeDrains(w: World, t: Turn): World
    requires TurnOk(w, t)
  {
    After(w, t.Batch() + t.evicts)
  }

  /** The turn attends to exactly those who are ready: the readable clients get a
      packet read each, the writable ones with a pending replay a write each. */
  ghost predicate Attends(w: World, t: Turn, canRead: set<Fd>, canWrite: set<Fd>)
    requires TurnOk(w, t)
  {
    && Legal(w, t.joins) && Legal(After(w, t.joins), t.serves)
    && (forall f :: f in ServedFds(t.serves) <==> f in canRead && f in Fds(After(w, t.joins).clients))
    && DrainedFds(t.drains) == PendingFds(BeforeDrains(w, t).clients, canWrite)
  }

  ghost predicate Leads(w: World, es: seq<Event>, w': World) {
    Legal(w, es) && After(w, es) == w'
  }

  /** The five phases of a pass, one after another, make a turn. */
  lemma TurnDone(w: World, t: Turn, w1: World, w2: World, w3: World, w4: World, w5: World,
                 canRead: set<Fd>, canWrite: set<Fd>)
    requires Leads(w, t.joins, w1) && Leads(w1, t.serves, w2) && Leads(w2, t.evicts, w3)
    requires Leads(w3, t.drains, w4) && Leads(w4, t.outputs, w5)
    requires JoinsOnly(t.joins) && ServesOnly(t.serves) && NoDup(ServedFds(t.serves))
    requires t.evicts == if w2.evict then [Evict] else []
    requires DrainsOnly(t.drains) && OutputsOnly(t.outputs)
    requires forall f :: f in ServedFds(t.serves) <==> f in canRead && f in Fds(w1.clients)
    requires DrainedFds(t.drains) == PendingFds(w3.clients, canWrite)
    ensures TurnOk(w, t) && Attends(w, t, canRead, canWrite) && After(w, t.Steps()) == w5
  {
    PhasesLead(w, t, w1, w2, w3, w4, w5);
    assert TurnOk(w, t);
  }

  lemma PhasesLead(w: World, t: Turn, w1: World, w2: World, w3: World, w4: World, w5: World)
    requires Leads(w, t.joins, w1) && Leads(w1, t.serves, w2) && Leads(w2, t.evicts, w3)
    requires Leads(w3, t.drains, w4) && Leads(w4, t.outputs, w5)
    ensures Leads(w, t.Batch(), w2) && Leads(w, t.Batch() + t.evicts, w3)
    ensures Leads(w, t.Batch() + t.evicts + t.drains, w4) && Leads(w, t.Steps(), w5)
  {
    LegalConcat(w, t.joins, t.serves);
    LegalConcat(w, t.Batch(), t.evicts);
    LegalConcat(w, t.Batch() + t.evicts, t.drains);
    LegalConcat(w, t.Batch() + t.evicts + t.drains, t.outputs);
  }

  lemma EvictPhase(w: World, t: Turn)
    requires TurnOk(w, t)
    ensures
      var v := After(w, t.Batch());
      if v.evict then Enabled(v, Evict) && BeforeDrains(w, t) == Apply(v, Evict) else BeforeDrains(w, t) == v
  {
    if After(w, t.Batch()).evict {
      assert (t.Batch() + [Evict])[..|t.Batch()|] == t.Batch();
    } else {
      assert t.Batch() + [] == t.Batch();
    }
  }

  lemma {:induction false} FlagUntouched(w: World, es: seq<Event>)
    requires Legal(w, es) && !w.evict && forall e <- es :: !Carries(e, ForceDetach)
    ensures !After(w, es).evict
  {
    if es == [] {
    } else {
      assert forall e <- es[..|es| - 1] :: e in es;
      FlagUntouched(w, es[..|es| - 1]);
      FlagAfterStep(After(w, es[..|es| - 1]), es[|es| - 1]);
    }
  }

  lemma StepsSplit(t: Turn)
    ensures t.Steps() == (t.Batch() + t.evicts) + (t.drains + t.outputs)
  {
  }

  lemma LegalSplit(w: World, all: seq<Event>, a: seq<Event>, b: seq<Event>)
    requires all == a + b && Legal(w, all) && Legal(w, a)
    ensures Legal(After(w, a), b) && After(w, all) == After(After(w, a), b)
  {
    LegalConcat(w, a, b);
  }

  /** Force-detach, one iteration: if anyone asked for it in the batch, then before
      replay draining starts nobody attached is left and everybody else is,
      in order; if nobody asked, nobody is removed; and the request is spent. */
  lemma ForceDetachTurn(w: World, t: Turn)
    requires Inv(w) && !w.evict && TurnOk(w, t)
    ensures
      var v, v' := After(w, t.Batch()), BeforeDrains(w, t);
      && (AsksEviction(t.Batch()) ==>
            (forall c: Client :: c in v'.clients <==> c in v.clients && !c.attached)
            && IsSubsequence(v'.clients, v.clients)
            && v'.kernel.sent.Keys == v.kernel.sent.Keys - AttachedFds(v.clients))
      && (!AsksEviction(t.Batch()) ==> v' == v)
    ensures !After(w, t.Steps()).evict
  {
    var v := After(w, t.Batch());
    RunKeeps(w, t.Batch());
    FlagAfterBatch(w, t.Batch());
    EvictPhase(w, t);
    if v.evict {
      EvictIsExact(v);
    }
    RequestIsSpent(w, t);
  }

  lemma RequestIsSpent(w: World, t: Turn)
    requires TurnOk(w, t) && !BeforeDrains(w, t).evict
    ensures !After(w, t.Steps()).evict
  {
    StepsSplit(t);
    LegalSplit(w, t.Steps(), t.Batch() + t.evicts, t.drains + t.outputs);
    FlagUntouched(BeforeDrains(w, t), t.drains + t.outputs);
  }

  /** ... and over every run of the loop no request is pending at any loop head. */
  lemma {:induction false} NoEvictionPending(w: World, ts: seq<Turn>)
    requires Inv(w) && !w.evict && TurnsOk(w, ts)
    ensures Inv(AfterTurns(w, ts)) && !AfterTurns(w, ts).evict
  {
    if ts == [] {
    } else {
      var before, t := ts[..|ts| - 1], ts[|ts| - 1];
      NoEvictionPending(w, before);
      ForceDetachTurn(AfterTurns(w, before), t);
      RunKeeps(AfterTurns(w, before), t.Steps());
    }
  }
}
