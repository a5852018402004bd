/** What reaches the child besides its input: signals and window sizes. */
module ChildControl {
  import opened Bytes
  import opened Protocol
  import opened DaemonModel

  /** The signals one step asks for.  A Kill packet (type 5) names one, or SIGTERM (15)
      by naming none; a Redraw (type 4) by method 3 asks for SIGWINCH (28). */
  function SignalsOf(e: Event): seq<nat> {
    if !e.Serve? || !e.got.Msg? then []
    else if e.got.pkt.msgType == 5 then [if e.got.pkt.len != 0 then e.got.pkt.len else 15]
    else if e.got.pkt.msgType == 4 && e.got.pkt.len == 3 then [28]
    else []
  }

  /** The window sizes one step sets: the data of a Winch (type 3) or Redraw. */
  function SizesOf(e: Event): seq<seq<byte>> {
    if e.Serve? && e.got.Msg? && (e.got.pkt.msgType == 3 || e.got.pkt.msgType == 4) then [e.got.pkt.data] else []
  }

  function AllSignals(es: seq<Event>): seq<nat> {
    if es == [] then [] else AllSignals(es[..|es| - 1]) + SignalsOf(es[|es| - 1])
  }

  function AllSizes(es: seq<Event>): seq<seq<byte>> {
    if es == [] then [] else AllSizes(es[..|es| - 1]) + SizesOf(es[|es| - 1])
  }

  lemma StepControls(w: World, e: Event)
    requires Enabled(w, e)
    ensures Apply(w, e).kernel.signals == w.kernel.signals + SignalsOf(e)
    ensures Apply(w, e).kernel.sizes == w.kernel.sizes + SizesOf(e)
  {
    if e.Serve? && e.got.Msg? {
      match FromU8(e.got.pkt.msgType) { case _ => }
    }
  }

  /** Over every run the child gets the signals and window sizes its clients asked
      for, in the order they were served, and no others. */
  lemma {:induction false} RunControls(w: World, es: seq<Event>)
    requires Legal(w, es)
    ensures After(w, es).kernel.signals == w.kernel.signals + AllSignals(es)
    ensures After(w, es).kernel.sizes == w.kernel.sizes + AllSizes(es)
  {
    if es == [] {
    } else {
      var before, e := es[..|es| - 1], es[|es| - 1];
      RunControls(w, before);
      StepControls(After(w, before), e);
      Regroup(w.kernel.signals, AllSignals(before), SignalsOf(e));
      Regroup(w.kernel.sizes, AllSizes(before), SizesOf(e));
    }
  }
}
