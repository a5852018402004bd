/** Byte strings and the three notions every other module is stated with:
    the tail `Last(n, s)` of a history, the concatenation `Flatten` of a list of
    chunks, and the order-preserving sub-list relation `IsSubsequence`. */
module Bytes {
  type byte = x: int | 0 <= x < 256

  function Min(a: nat, b: nat): nat {
    if a <= b then a else b
  }

  /** The last `n` elements of `s`, or all of `s` when it is shorter. */
  function Last<T>(n: nat, s: seq<T>): (r: seq<T>)
    ensures |r| == Min(n, |s|)
  {
    if |s| <= n then s else s[|s| - n..]
  }

  /** Keeping a tail and then growing it loses nothing that a later tail would keep. */
  lemma LastOfGrownTail<T>(n: nat, a: seq<T>, b: seq<T>)
    ensures Last(n, Last(n, a) + b) == Last(n, a + b)
  {
    var x, y := Last(n, Last(n, a) + b), Last(n, a + b);
    assert |x| == |y|;
    forall i | 0 <= i < |x| ensures x[i] == y[i] {
      assert (Last(n, a) + b)[|Last(n, a) + b| - |x| + i] == (a + b)[|a + b| - |y| + i];
    }
  }

  lemma PrefixGrowsBy<T>(s: seq<T>, n: nat, more: nat)
    requires n + more <= |s|
    ensures s[..n] + s[n..][..more] == s[..n + more]
  {
  }

  lemma Regroup<T>(a: seq<T>, b: seq<T>, c: seq<T>)
    ensures a + (b + c) == a + b + c
  {
  }

  function Flatten(chunks: seq<seq<byte>>): seq<byte> {
    if chunks == [] then [] else Flatten(chunks[..|chunks| - 1]) + chunks[|chunks| - 1]
  }

  lemma FlattenSnoc(chunks: seq<seq<byte>>, c: seq<byte>)
    ensures Flatten(chunks + [c]) == Flatten(chunks) + c
  {
    assert (chunks + [c])[..|chunks|] == chunks;
  }

  lemma {:induction false} FlattenConcat(a: seq<seq<byte>>, b: seq<seq<byte>>)
    ensures Flatten(a + b) == Flatten(a) + Flatten(b)
    decreases |b|
  {
    if b == [] {
      assert a + b == a;
    } else {
      var b0 := b[..|b| - 1];
      assert a + b == (a + b0) + [b[|b| - 1]];
      FlattenConcat(a, b0);
      FlattenSnoc(a + b0, b[|b| - 1]);
    }
  }

  /** `picked` lists some of the elements of `all`, in the order of `all`. */
  ghost predicate IsSubsequence<T>(picked: seq<T>, all: seq<T>) {
    if all == [] then picked == []
    else
      var rest := all[..|all| - 1];
      || IsSubsequence(picked, rest)
      || (|picked| > 0 && picked[|picked| - 1] == all[|all| - 1] && IsSubsequence(picked[..|picked| - 1], rest))
  }
}
