/** Sending the scrollback to one client, src/scrollback.rs: a cursor into the
    ring that advances by whatever the socket takes. */
module Replay {
  import opened Bytes
  import opened KernelModel
  import opened ScrollbackRing

  /** A run of physical bytes is a slice. */
  lemma StraightSlice(buf: seq<byte>, from: nat, n: nat)
    requires |buf| == SCROLLBACK_SIZE && from < SCROLLBACK_SIZE && from + n <= SCROLLBACK_SIZE
    ensures Slice(buf, from, n) == buf[from..from + n]
  {
  }

  /** Two slices that meet are one. */
  lemma SlicesMeet(buf: seq<byte>, from: nat, n: nat, more: nat)
    requires |buf| == SCROLLBACK_SIZE && from < SCROLLBACK_SIZE && n + more <= SCROLLBACK_SIZE
    ensures Slice(buf, from, n) + Slice(buf, Wrap(from + n), more) == Slice(buf, from, n + more)
  {
  }

  class ReplayState {
    var head: nat
    var remaining: nat

    constructor (head: nat, remaining: nat)
      ensures this.head == head && this.remaining == remaining
    {
      this.head, this.remaining := head, remaining;
    }

    /** One write, of at most what lies before the end of the buffer. */
    method Step(os: Os, fd: Fd, sb: Scrollback) returns (r: IoResult)
      requires sb.View().Valid() && os.k.IsOpen(fd)
      requires head < SCROLLBACK_SIZE && 0 < remaining <= SCROLLBACK_SIZE
      modifies this, os`k, os`transients, os`failures, os`attempts
      ensures r.Did? ==>
        && r.n <= old(remaining) && remaining == old(remaining) - r.n && head == Wrap(old(head) + r.n)
        && os.k == old(os.k).Sent(fd, Slice(sb.buf[..], old(head), r.n))
      ensures !r.Did? ==> os.k == old(os.k) && head == old(head) && remaining == old(remaining)
      ensures os.transients <= old(os.transients)
      ensures r.Interrupted? || r.Again? || r == Did(0) ==> os.transients < old(os.transients)
      ensures os.failures == old(os.failures) + (if r.Failed? then 1 else 0)
    {
      var cont := SCROLLBACK_SIZE - head;
      var m := Min(cont, remaining);
      r := os.Write(fd, sb.buf[head..head + m]);
      if r.Did? {
        assert sb.buf[head..head + m][..r.n] == sb.buf[..][head..head + r.n];
        StraightSlice(sb.buf[..], head, r.n);
        MaskWraps(head + r.n);
        head := BitAnd(head + r.n, SCROLLBACK_SIZE - 1);
        remaining := remaining - r.n;
      }
    }

    /** Write until nothing remains, the socket fills up (true) or fails (false).
        Under every schedule of partial writes, what was sent is exactly the ring
        slice the cursor moved over; it stops early only for a reason. */
    method Drain(os: Os, fd: Fd, sb: Scrollback) returns (ok: bool)
      requires sb.View().Valid() && os.k.IsOpen(fd)
      requires head < SCROLLBACK_SIZE && remaining <= SCROLLBACK_SIZE
      modifies this, os`k, os`transients, os`failures, os`attempts
      ensures head < SCROLLBACK_SIZE && remaining <= old(remaining)
      ensures head == Wrap(old(head) + (old(remaining) - remaining))
      ensures os.k == old(os.k).Sent(fd, Slice(sb.buf[..], old(head), old(remaining) - remaining))
      ensures os.transients <= old(os.transients)
      ensures os.failures >= old(os.failures)
      ensures ok ==> remaining == 0 || os.transients < old(os.transients)
      ensures !ok ==> remaining > 0 && os.failures > old(os.failures)
    {
      ghost var ring := sb.buf[..];
      ghost var h, k := head, os.k;
      ghost var n: nat := 0;
      SentNothing(k, fd);
      while remaining > 0
        invariant remaining + n == old(remaining)
        invariant head == Wrap(h + n)
        invariant os.k == k.Sent(fd, Slice(ring, h, n))
        invariant os.transients <= old(os.transients) && os.failures == old(os.failures)
        decreases remaining, os.transients
      {
        var r := Step(os, fd, sb);
        match r
        case Interrupted =>
        case Again => return true;
        case Failed(_) => return false;
        case Did(ret) =>
          SlicesMeet(ring, h, n, ret);
          SentTwice(k, fd, Slice(ring, h, n), Slice(ring, Wrap(h + n), ret));
          n := n + ret;
      }
      return true;
    }
  }
}
