/** The fixed-capacity scrollback ring of src/scrollback.rs. */
module ScrollbackRing {
  import opened Bytes

  const SCROLLBACK_SIZE: nat := 128 * 1024

  /** A circular index: `i` taken modulo the ring size, for `i` on the first or second lap. */
  function Wrap(i: nat): (r: nat)
    requires i < 2 * SCROLLBACK_SIZE
    ensures r < SCROLLBACK_SIZE
  {
    if i < SCROLLBACK_SIZE then i else i - SCROLLBACK_SIZE
  }

  /** The ring as a value: physical buffer, index of the oldest byte, number of bytes held. */
  datatype Ring = Ring(buf: seq<byte>, head: nat, len: nat) {
    ghost predicate Valid() {
      |buf| == SCROLLBACK_SIZE && head < SCROLLBACK_SIZE && len <= SCROLLBACK_SIZE
    }

    /** The bytes held, oldest first. */
    ghost function Contents(): (c: seq<byte>)
      requires Valid()
      ensures |c| == len
    {
      Slice(buf, head, len)
    }

    /** The physical index `back` bytes before the place where the next byte goes. */
    ghost function Behind(back: nat): (i: nat)
      requires Valid() && back <= len
      ensures i < SCROLLBACK_SIZE
    {
      Wrap(head + (len - back))
    }
  }

  /** `n` bytes of the circular buffer from physical index `from`. */
  ghost function Slice(buf: seq<byte>, from: nat, n: nat): (s: seq<byte>)
    requires |buf| == SCROLLBACK_SIZE && from < SCROLLBACK_SIZE && n <= SCROLLBACK_SIZE
    ensures |s| == n
    ensures forall i :: 0 <= i < n ==> s[i] == buf[Wrap(from + i)]
  {
    seq(n, i requires 0 <= i < n => buf[Wrap(from + i)])
  }

  /** How far physical index `i` lies ahead of physical index `from`, going round. */
  function Ahead(i: nat, from: nat): nat
    requires i < SCROLLBACK_SIZE && from < SCROLLBACK_SIZE
  {
    if from <= i then i - from else i + SCROLLBACK_SIZE - from
  }

  /** The buffer after `kept` has been laid down from index `wp`, going round. */
  ghost function Overlay(buf: seq<byte>, wp: nat, kept: seq<byte>): (r: seq<byte>)
    requires |buf| == SCROLLBACK_SIZE && wp < SCROLLBACK_SIZE && |kept| <= SCROLLBACK_SIZE
    ensures |r| == SCROLLBACK_SIZE
    ensures forall i :: 0 <= i < SCROLLBACK_SIZE ==>
      r[i] == if Ahead(i, wp) < |kept| then kept[Ahead(i, wp)] else buf[i]
  {
    seq(SCROLLBACK_SIZE, i requires 0 <= i < SCROLLBACK_SIZE =>
      if Ahead(i, wp) < |kept| then kept[Ahead(i, wp)] else buf[i])
  }

  /** Appending, index by index: a position less than `|kept|` ahead of the write
      end takes a new byte, every other position keeps its old one. */
  ghost function Appended(r: Ring, data: seq<byte>): (r': Ring)
    requires r.Valid()
    ensures r'.Valid()
  {
    var kept := Last(SCROLLBACK_SIZE, data);
    var total := r.len + |kept|;
    Ring(
      Overlay(r.buf, r.Behind(0), kept),
      if total <= SCROLLBACK_SIZE then r.head else Wrap(r.head + (total - SCROLLBACK_SIZE)),
      Min(total, SCROLLBACK_SIZE))
  }

  /** The circular arithmetic of an append of `k` bytes: byte `j` afterwards is
      byte `at` of old contents ++ new bytes, and it was overwritten exactly
      when `at` falls among the new ones. */
  lemma AppendIndex(head: nat, len: nat, k: nat, j: nat)
    requires head < SCROLLBACK_SIZE && len <= SCROLLBACK_SIZE && k <= SCROLLBACK_SIZE
    requires j < Min(len + k, SCROLLBACK_SIZE)
    ensures
      var head' := if len + k <= SCROLLBACK_SIZE then head else Wrap(head + (len + k - SCROLLBACK_SIZE));
      var at := len + k - Min(len + k, SCROLLBACK_SIZE) + j;
      && (at < len ==> Wrap(head' + j) == Wrap(head + at) && Ahead(Wrap(head' + j), Wrap(head + len)) >= k)
      && (at >= len ==> Ahead(Wrap(head' + j), Wrap(head + len)) == at - len)
  {
  }

  lemma ContentsAt(r: Ring, j: nat)
    requires r.Valid() && j < r.len
    ensures r.Contents()[j] == r.buf[Wrap(r.head + j)]
  {
  }

  lemma ByteAfterAppend(r: Ring, data: seq<byte>, i: nat)
    requires r.Valid() && i < SCROLLBACK_SIZE
    ensures
      var kept, ahead := Last(SCROLLBACK_SIZE, data), Ahead(i, Wrap(r.head + r.len));
      Appended(r, data).buf[i] == if ahead < |kept| then kept[ahead] else r.buf[i]
  {
  }

  /** An old byte that survives an append. */
  lemma OldByteStays(r: Ring, data: seq<byte>, j: nat, at: nat)
    requires r.Valid() && j < Appended(r, data).len
    requires at == r.len + |Last(SCROLLBACK_SIZE, data)| - Appended(r, data).len + j < r.len
    ensures Appended(r, data).Contents()[j] == r.Contents()[at]
  {
    AppendIndex(r.head, r.len, |Last(SCROLLBACK_SIZE, data)|, j);
    ByteAfterAppend(r, data, Wrap(r.head + at));
    ContentsAt(Appended(r, data), j);
    ContentsAt(r, at);
  }

  /** A new byte comes right after the old ones. */
  lemma NewByteLands(r: Ring, data: seq<byte>, j: nat, at: nat)
    requires r.Valid() && j < Appended(r, data).len
    requires at == r.len + |Last(SCROLLBACK_SIZE, data)| - Appended(r, data).len + j >= r.len
    ensures Appended(r, data).Contents()[j] == Last(SCROLLBACK_SIZE, data)[at - r.len]
  {
    AppendIndex(r.head, r.len, |Last(SCROLLBACK_SIZE, data)|, j);
    ByteAfterAppend(r, data, Wrap(Appended(r, data).head + j));
    ContentsAt(Appended(r, data), j);
  }

  /** Which of the two sources byte `j` of the grown ring comes from. */
  lemma AppendAt(r: Ring, data: seq<byte>, j: nat)
    requires r.Valid() && j < Appended(r, data).len
    ensures
      var all := r.Contents() + Last(SCROLLBACK_SIZE, data);
      Appended(r, data).Contents()[j] == all[|all| - Appended(r, data).len + j]
  {
    var at := r.len + |Last(SCROLLBACK_SIZE, data)| - Appended(r, data).len + j;
    if at < r.len {
      OldByteStays(r, data, j, at);
    } else {
      NewByteLands(r, data, j, at);
    }
  }

  lemma LastIsDrop(n: nat, s: seq<byte>, t: seq<byte>)
    requires |t| == Min(n, |s|)
    requires forall j :: 0 <= j < |t| ==> t[j] == s[|s| - |t| + j]
    ensures t == Last(n, s)
  {
  }

  lemma LastOfDataSuffices(c: seq<byte>, data: seq<byte>)
    ensures Last(SCROLLBACK_SIZE, c + data) == Last(SCROLLBACK_SIZE, c + Last(SCROLLBACK_SIZE, data))
  {
    if |data| > SCROLLBACK_SIZE {
      assert Last(SCROLLBACK_SIZE, c + data) == Last(SCROLLBACK_SIZE, data);
    }
  }

  /** Ring refinement, one step: the ring holds exactly the last SCROLLBACK_SIZE
      bytes of everything it was given, whatever the size of `data` and wherever
      the write wraps. */
  lemma AppendKeepsLast(r: Ring, data: seq<byte>)
    requires r.Valid()
    ensures Appended(r, data).Contents() == Last(SCROLLBACK_SIZE, r.Contents() + data)
  {
    var all := r.Contents() + Last(SCROLLBACK_SIZE, data);
    var c' := Appended(r, data).Contents();
    forall j | 0 <= j < |c'| ensures c'[j] == all[|all| - |c'| + j] {
      AppendAt(r, data, j);
    }
    LastIsDrop(SCROLLBACK_SIZE, all, c');
    LastOfDataSuffices(r.Contents(), data);
  }

  ghost function AppendedAll(r: Ring, chunks: seq<seq<byte>>): (r': Ring)
    requires r.Valid()
    ensures r'.Valid()
  {
    if chunks == [] then r else Appended(AppendedAll(r, chunks[..|chunks| - 1]), chunks[|chunks| - 1])
  }

  /** Ring refinement, any number of appends of any sizes. */
  lemma {:induction false} AppendsKeepLast(r: Ring, chunks: seq<seq<byte>>)
    requires r.Valid()
    ensures AppendedAll(r, chunks).Contents() == Last(SCROLLBACK_SIZE, r.Contents() + Flatten(chunks))
  {
    if chunks == [] {
      assert r.Contents() + Flatten(chunks) == r.Contents();
    } else {
      var before, c := chunks[..|chunks| - 1], chunks[|chunks| - 1];
      AppendsKeepLast(r, before);
      AppendKeepsLast(AppendedAll(r, before), c);
      LastOfGrownTail(SCROLLBACK_SIZE, r.Contents() + Flatten(before), c);
      assert r.Contents() + Flatten(before) + c == r.Contents() + Flatten(chunks);
    }
  }

  // ---- replay cursors ------------------------------------------------------

  /** A cursor `back` bytes behind the write end reads the ring's contents. */
  lemma WindowIsContents(r: Ring, back: nat, n: nat)
    requires r.Valid() && n <= back <= r.len
    ensures Slice(r.buf, r.Behind(back), n) == r.Contents()[r.len - back..r.len - back + n]
  {
  }

  /** Sending `n` bytes moves the cursor `n` bytes nearer the write end. */
  lemma CursorAfterDrain(r: Ring, back: nat, n: nat)
    requires r.Valid() && n <= back <= r.len
    ensures Wrap(r.Behind(back) + n) == r.Behind(back - n)
  {
  }

  /** A cursor stays put while the write end moves away from it, for up to one lap. */
  lemma CursorAfterAppend(r: Ring, data: seq<byte>, back: nat)
    requires r.Valid() && back <= r.len && back + |data| <= SCROLLBACK_SIZE
    ensures back + |data| <= Appended(r, data).len
    ensures Appended(r, data).Behind(back + |data|) == r.Behind(back)
  {
  }

  /** Part of a slice is a slice. */
  lemma SliceDrop(buf: seq<byte>, from: nat, n: nat, k: nat)
    requires |buf| == SCROLLBACK_SIZE && from < SCROLLBACK_SIZE && k <= n <= SCROLLBACK_SIZE
    ensures Slice(buf, from, n)[k..] == if from + k < 2 * SCROLLBACK_SIZE then Slice(buf, Wrap(from + k), n - k) else []
    ensures Slice(buf, from, n)[..k] == Slice(buf, from, k)
  {
  }

  /** Bytes up to `back` behind the write end outlive any append that leaves
      `back` plus its size within the ring. */
  lemma WindowSurvives(r: Ring, data: seq<byte>, back: nat, n: nat)
    requires r.Valid() && n <= back <= r.len && back + |data| <= SCROLLBACK_SIZE
    ensures Slice(Appended(r, data).buf, r.Behind(back), n) == Slice(r.buf, r.Behind(back), n)
  {
    var r' := Appended(r, data);
    CursorAfterAppend(r, data, back);
    WindowIsContents(r', back + |data|, n);
    WindowIsContents(r, back, n);
    AppendKeepsLast(r, data);
  }

  /** The `n` bytes before the write end of `r` are still there after `data` was appended. */
  ghost predicate TailSurvives(r: Ring, data: seq<byte>, n: nat)
    requires r.Valid() && n <= r.len
  {
    Slice(Appended(r, data).buf, r.Behind(n), n) == Slice(r.buf, r.Behind(n), n)
  }

  /** A full ring of zeros, and as many ones: any append longer than the bound shows. */
  lemma TailLostBeyondBound(k: nat, n: nat) returns (r: Ring, data: seq<byte>)
    requires 0 < n <= SCROLLBACK_SIZE < k + n
    ensures r.Valid() && r.len == SCROLLBACK_SIZE && |data| == k
    ensures !TailSurvives(r, data, n)
  {
    r := Ring(seq(SCROLLBACK_SIZE, _ => 0), 0, SCROLLBACK_SIZE);
    data := seq(k, _ => 1);
    var at := r.Behind(n);
    assert Slice(r.buf, at, n)[0] == r.buf[at] == 0;
    assert Slice(Appended(r, data).buf, at, n)[0] == Appended(r, data).buf[at];
    assert Appended(r, data).buf[at] == 1;
  }

  /** The overwrite bound is exact: with `n` bytes of a replay still to send, `k`
      further bytes of output are harmless in every ring if and only if k + n
      does not exceed the ring size. */
  lemma OverwriteBoundIsExact(k: nat, n: nat)
    requires 0 < n <= SCROLLBACK_SIZE
    ensures k + n <= SCROLLBACK_SIZE <==>
      forall r: Ring, data: seq<byte> | r.Valid() && n <= r.len && |data| == k :: TailSurvives(r, data, n)
  {
    if k + n <= SCROLLBACK_SIZE {
      forall r: Ring, data: seq<byte> | r.Valid() && n <= r.len && |data| == k ensures TailSurvives(r, data, n) {
        WindowSurvives(r, data, n, n);
      }
    } else {
      var r, data := TailLostBeyondBound(k, n);
      assert !TailSurvives(r, data, n);
    }
  }

  // ---- the same for output that comes in chunks ----------------------------

  lemma {:induction false} WindowSurvivesAll(r: Ring, chunks: seq<seq<byte>>, back: nat, n: nat)
    requires r.Valid() && n <= back <= r.len && back + |Flatten(chunks)| <= SCROLLBACK_SIZE
    ensures back + |Flatten(chunks)| <= AppendedAll(r, chunks).len
    ensures AppendedAll(r, chunks).Behind(back + |Flatten(chunks)|) == r.Behind(back)
    ensures Slice(AppendedAll(r, chunks).buf, r.Behind(back), n) == Slice(r.buf, r.Behind(back), n)
  {
    if chunks == [] {
    } else {
      var before, c := chunks[..|chunks| - 1], chunks[|chunks| - 1];
      WindowSurvivesAll(r, before, back, n);
      CursorAfterAppend(AppendedAll(r, before), c, back + |Flatten(before)|);
      WindowSurvives(AppendedAll(r, before), c, back + |Flatten(before)|, n);
    }
  }

  ghost predicate TailSurvivesAll(r: Ring, chunks: seq<seq<byte>>, n: nat)
    requires r.Valid() && n <= r.len
  {
    Slice(AppendedAll(r, chunks).buf, r.Behind(n), n) == Slice(r.buf, r.Behind(n), n)
  }

  ghost predicate ChunksUpTo(chunks: seq<seq<byte>>, m: nat) {
    forall c <- chunks :: 0 < |c| <= m
  }

  ghost predicate OnesOnly(data: seq<byte>) {
    forall i :: 0 <= i < |data| ==> data[i] == 1
  }

  ghost predicate AllOnes(chunks: seq<seq<byte>>) {
    forall c <- chunks :: OnesOnly(c)
  }

  /** `k` ones in chunks of at most `m`. */
  function Ones(k: nat, m: nat): (chunks: seq<seq<byte>>)
    requires m > 0
    ensures ChunksUpTo(chunks, m) && AllOnes(chunks) && |Flatten(chunks)| == k
    decreases k
  {
    if k == 0 then []
    else
      var c := seq(Min(k, m), _ => 1);
      FlattenSnoc(Ones(k - |c|, m), c);
      Ones(k - |c|, m) + [c]
  }

  lemma WrapTwice(h: nat, a: nat, b: nat)
    requires h < SCROLLBACK_SIZE && a + b < SCROLLBACK_SIZE
    ensures Wrap(Wrap(h + a) + b) == Wrap(h + (a + b))
  {
  }

  lemma AheadOfMoved(at: nat, h: nat, j: nat)
    requires at < SCROLLBACK_SIZE && h < SCROLLBACK_SIZE && j <= Ahead(at, h)
    ensures Ahead(at, Wrap(h + j)) == Ahead(at, h) - j
  {
  }

  /** A full ring whose head has moved `j` on from `h`: more output moves it on ... */
  lemma HeadMoves(r: Ring, h: nat, j: nat, data: seq<byte>)
    requires r.Valid() && r.len == SCROLLBACK_SIZE && h < SCROLLBACK_SIZE && j + |data| < SCROLLBACK_SIZE
    requires r.head == Wrap(h + j)
    ensures Appended(r, data).len == SCROLLBACK_SIZE && Appended(r, data).head == Wrap(h + (j + |data|))
  {
    WrapTwice(h, j, |data|);
  }

  /** ... a one stays where a one is or lands ... */
  lemma OnesLand(r: Ring, data: seq<byte>, at: nat)
    requires r.Valid() && at < SCROLLBACK_SIZE && OnesOnly(data)
    requires r.buf[at] == 1 || Ahead(at, r.Behind(0)) < |data|
    ensures Appended(r, data).buf[at] == 1
  {
    var kept := Last(SCROLLBACK_SIZE, data);
    assert OnesOnly(kept);
  }

  /** ... and the next ones land on what is ahead of the head. */
  lemma OnesLandNext(r: Ring, h: nat, j: nat, data: seq<byte>, at: nat)
    requires r.Valid() && r.len == SCROLLBACK_SIZE && h < SCROLLBACK_SIZE && at < SCROLLBACK_SIZE
    requires j <= Ahead(at, h) < j + |data| && r.head == Wrap(h + j) && OnesOnly(data)
    ensures Appended(r, data).buf[at] == 1
  {
    AheadOfMoved(at, h, j);
    assert r.Behind(0) == r.head;
    OnesLand(r, data, at);
  }

  lemma {:induction false} HeadAfterAll(r: Ring, chunks: seq<seq<byte>>)
    requires r.Valid() && r.len == SCROLLBACK_SIZE && |Flatten(chunks)| < SCROLLBACK_SIZE
    ensures AppendedAll(r, chunks).len == SCROLLBACK_SIZE
    ensures AppendedAll(r, chunks).head == Wrap(r.head + |Flatten(chunks)|)
  {
    if chunks == [] {
    } else {
      var before, c := chunks[..|chunks| - 1], chunks[|chunks| - 1];
      HeadAfterAll(r, before);
      HeadMoves(AppendedAll(r, before), r.head, |Flatten(before)|, c);
    }
  }

  /** Enough ones turn every byte of a full ring into a one. */
  lemma {:induction false} OnesReach(r: Ring, chunks: seq<seq<byte>>, at: nat)
    requires r.Valid() && r.len == SCROLLBACK_SIZE && AllOnes(chunks)
    requires at < SCROLLBACK_SIZE && Ahead(at, r.head) < |Flatten(chunks)|
    ensures AppendedAll(r, chunks).buf[at] == 1
  {
    var before, c := chunks[..|chunks| - 1], chunks[|chunks| - 1];
    assert chunks == before + [c];
    if Ahead(at, r.head) < |Flatten(before)| {
      OnesReach(r, before, at);
      OnesLand(AppendedAll(r, before), c, at);
    } else {
      HeadAfterAll(r, before);
      OnesLandNext(AppendedAll(r, before), r.head, |Flatten(before)|, c, at);
    }
  }

  lemma TailLostInChunks(chunks: seq<seq<byte>>, n: nat) returns (r: Ring)
    requires 0 < n <= SCROLLBACK_SIZE < |Flatten(chunks)| + n && AllOnes(chunks)
    ensures r.Valid() && n <= r.len && !TailSurvivesAll(r, chunks, n)
  {
    r := Ring(seq(SCROLLBACK_SIZE, _ => 0), 0, SCROLLBACK_SIZE);
    var at := r.Behind(n);
    OnesReach(r, chunks, at);
    assert Slice(r.buf, at, n)[0] == r.buf[at] == 0;
    assert Slice(AppendedAll(r, chunks).buf, at, n)[0] == AppendedAll(r, chunks).buf[at];
  }

  /** The bound stays exact when the `k` bytes come in chunks of any size up to `m`. */
  lemma OverwriteBoundIsExactInChunks(k: nat, n: nat, m: nat)
    requires 0 < n <= SCROLLBACK_SIZE && m > 0
    ensures k + n <= SCROLLBACK_SIZE <==>
      forall r: Ring, chunks: seq<seq<byte>> |
        r.Valid() && n <= r.len && ChunksUpTo(chunks, m) && |Flatten(chunks)| == k :: TailSurvivesAll(r, chunks, n)
  {
    if k + n <= SCROLLBACK_SIZE {
      forall r: Ring, chunks: seq<seq<byte>> |
        r.Valid() && n <= r.len && ChunksUpTo(chunks, m) && |Flatten(chunks)| == k
        ensures TailSurvivesAll(r, chunks, n)
      {
        WindowSurvivesAll(r, chunks, n, n);
      }
    } else {
      var r := TailLostInChunks(Ones(k, m), n);
      assert !TailSurvivesAll(r, Ones(k, m), n);
    }
  }

  // ---- index masking -------------------------------------------------------

  function Pow2(k: nat): (p: nat)
    ensures p >= 1
  {
    if k == 0 then 1 else 2 * Pow2(k - 1)
  }

  /** Bitwise conjunction of two unsigned machine words, least significant bit first. */
  function BitAnd(x: nat, y: nat): nat {
    if x == 0 || y == 0 then 0 else (x % 2) * (y % 2) + 2 * BitAnd(x / 2, y / 2)
  }

  /** Masking with a power of two less one wraps an index on its second lap. */
  lemma {:induction false} MaskSubtractsOneLap(x: nat, k: nat)
    requires x < 2 * Pow2(k)
    ensures BitAnd(x, Pow2(k) - 1) == if x < Pow2(k) then x else x - Pow2(k)
  {
    if k == 0 || x == 0 {
    } else {
      var p := Pow2(k - 1);
      assert (2 * p - 1) % 2 == 1 && (2 * p - 1) / 2 == p - 1;
      MaskSubtractsOneLap(x / 2, k - 1);
      assert x == 2 * (x / 2) + x % 2;
    }
  }

  /** The mask the code applies to every index is the circular wrap. */
  lemma MaskWraps(i: nat)
    requires i < 2 * SCROLLBACK_SIZE
    ensures BitAnd(i, SCROLLBACK_SIZE - 1) == Wrap(i) == i % SCROLLBACK_SIZE
  {
    assert Pow2(17) == SCROLLBACK_SIZE by {
      assert Pow2(4) == 16 && Pow2(8) == 256 && Pow2(12) == 4096 && Pow2(16) == 65536;
    }
    MaskSubtractsOneLap(i, 17);
  }

  // ---- the buffer itself ---------------------------------------------------

  class Scrollback {
    const buf: array<byte>
    var head: nat
    var len: nat

    ghost function View(): Ring
      reads this, buf
    {
      Ring(buf[..], head, len)
    }

    constructor ()
      ensures View().Valid() && View().Contents() == [] && head == 0
      ensures fresh(buf) && buf.Length == 128 * 1024
    {
      buf := new byte[SCROLLBACK_SIZE](_ => 0);
      head, len := 0, 0;
    }

    /** Two slice copies, the second one for what wraps round to the start. */
    method Append(data: seq<byte>)
      requires View().Valid()
      modifies this, buf
      ensures View().Valid() && View() == Appended(old(View()), data)
      ensures View().Contents() == Last(SCROLLBACK_SIZE, old(View().Contents()) + data)
    {
      ghost var was := View();
      AppendKeepsLast(was, data);
      if |data| == 0 {
        AppendedNothing(was, data);
        return;
      }
      var kept := if |data| >= SCROLLBACK_SIZE then data[|data| - SCROLLBACK_SIZE..] else data;
      var mask := SCROLLBACK_SIZE - 1;
      MaskWraps(head + len);
      var wp := BitAnd(head + len, mask);
      CopyIn(wp, kept);
      var newTotal := len + |kept|;
      if newTotal <= SCROLLBACK_SIZE {
        len := newTotal;
      } else {
        MaskWraps(head + newTotal - SCROLLBACK_SIZE);
        head := BitAnd(head + newTotal - SCROLLBACK_SIZE, mask);
        len := SCROLLBACK_SIZE;
      }
    }

    method CopyIn(wp: nat, kept: seq<byte>)
      requires buf.Length == SCROLLBACK_SIZE && wp < SCROLLBACK_SIZE && |kept| <= SCROLLBACK_SIZE
      modifies buf
      ensures buf[..] == Overlay(old(buf[..]), wp, kept)
    {
      ghost var was := buf[..];
      var n1 := Min(SCROLLBACK_SIZE - wp, |kept|);
      forall k | 0 <= k < n1 {
        buf[wp + k] := kept[k];
      }
      if n1 < |kept| {
        forall k | 0 <= k < |kept| - n1 {
          buf[k] := kept[n1 + k];
        }
      }
      ghost var want := Overlay(was, wp, kept);
      assert forall i :: 0 <= i < SCROLLBACK_SIZE ==> buf[i] == want[i];
    }
  }

  lemma AppendedNothing(r: Ring, data: seq<byte>)
    requires r.Valid() && data == []
    ensures Appended(r, data) == r
  {
    assert Overlay(r.buf, r.Behind(0), Last(SCROLLBACK_SIZE, data)) == r.buf;
  }
}
