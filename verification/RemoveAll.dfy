/** `rm -a`, src/session.rs: two passes over the session directory, the first
    removing dead sessions and their logs, the second logs left without a session. */
module RemoveAll {

  type Name = string

  /** What a directory entry turns out to be.  A live socket accepts a connection,
      a stale one refuses it, any other failure is a reason to leave it alone; a
      dangling entry is a link to nothing. */
  datatype Entry = Live | Stale | Unreachable | Plain | Dangling

  type Dir = map<Name, Entry>

  const DOT_LOG: string := ".log"
  const APP_LOG: Name := ".ztch-app.log"

  // ---- names, as std::path sees them ---------------------------------------

  /** The position of the last dot, or -1. */
  function LastDot(n: Name): (d: int)
    ensures -1 <= d < |n|
    ensures d >= 0 ==> n[d] == '.'
    ensures forall j :: d < j < |n| ==> n[j] != '.'
  {
    if n == "" then -1 else if n[|n| - 1] == '.' then |n| - 1 else LastDot(n[..|n| - 1])
  }

  /** Path::extension == "log": something before the last dot, "log" after it. */
  predicate HasLogExtension(n: Name) {
    LastDot(n) > 0 && n[LastDot(n)..] == DOT_LOG
  }

  /** Path::file_stem of a name that has an extension. */
  function Stem(n: Name): Name
    requires HasLogExtension(n)
  {
    n[..LastDot(n)]
  }

  predicate Hidden(n: Name) {
    n != "" && n[0] == '.'
  }

  lemma LastDotOfLog(n: Name)
    ensures LastDot(n + DOT_LOG) == |n|
  {
    var m := n + DOT_LOG;
    assert m[|n|] == '.' && m[|n| + 1] == 'l' && m[|n| + 2] == 'o' && m[|n| + 3] == 'g';
    var d := LastDot(m);
    assert d >= |n|;
  }

  /** A non-empty name's log is a log, and its stem is the name again. */
  lemma LogOfName(n: Name)
    requires n != ""
    ensures HasLogExtension(n + DOT_LOG) && Stem(n + DOT_LOG) == n
  {
    LastDotOfLog(n);
  }

  lemma NameOfLog(n: Name)
    requires HasLogExtension(n)
    ensures n == Stem(n) + DOT_LOG && Stem(n) != ""
  {
  }

  /** Having the extension is ending in ".log" with something before it. */
  predicate IsLogName(n: Name) {
    |n| > 4 && n[|n| - 4..] == ".log"
  }

  lemma ExtensionIsEnding(n: Name)
    ensures HasLogExtension(n) <==> IsLogName(n)
    ensures IsLogName(n) ==> Stem(n) == n[..|n| - 4]
  {
    if IsLogName(n) {
      LogOfName(n[..|n| - 4]);
      assert n == n[..|n| - 4] + DOT_LOG;
    }
  }

  // ---- what should be removed ----------------------------------------------

  /** Does the path exist?  Links to nothing do not; "." and ".." always do. */
  predicate Exists(d: Dir, n: Name) {
    n == "." || n == ".." || (n in d && !d[n].Dangling?)
  }

  /** A dead session the first pass acts on. */
  predicate DeadSession(d: Dir, n: Name) {
    n in d && !HasLogExtension(n) && !Hidden(n) && d[n].Stale?
  }

  /** The log of such a session. */
  predicate DeadLog(d: Dir, n: Name) {
    n in d && HasLogExtension(n) && DeadSession(d, Stem(n))
  }

  /** A log with nothing at its stem. */
  predicate OrphanLog(d: Dir, n: Name) {
    n in d && HasLogExtension(n) && n != APP_LOG && !Exists(d, Stem(n))
  }

  ghost function DeadSessions(d: Dir): set<Name> {
    set n | n in d && DeadSession(d, n)
  }

  ghost function OrphanLogs(d: Dir): set<Name> {
    set n | n in d && OrphanLog(d, n)
  }

  ghost predicate Distinct(names: seq<Name>) {
    forall i, j :: 0 <= i < j < |names| ==> names[i] != names[j]
  }

  /** `names` is a listing of the directory, in some order. */
  ghost predicate NamesOf(d: Dir, names: seq<Name>) {
    Distinct(names) && (forall n :: n in names <==> n in d) && "" !in d
  }

  /** Any names of the directory may come first in a listing. */
  lemma ListingFrom(d: Dir, first: seq<Name>) returns (names: seq<Name>, rest: seq<Name>)
    requires "" !in d && Distinct(first) && forall n <- first :: n in d
    ensures NamesOf(d, names) && names == first + rest
    ensures forall n <- rest :: n !in first
  {
    var left := d.Keys - set n | n in first;
    rest := [];
    while left != {}
      invariant left <= d.Keys && forall n <- first :: n !in left
      invariant Distinct(rest) && forall n :: n in rest <==> n in d && n !in left && n !in first
      decreases left
    {
      var n :| n in left;
      left := left - {n};
      rest := rest + [n];
    }
    names := first + rest;
    forall i, j | 0 <= i < j < |names| ensures names[i] != names[j] {
      if i < |first| <= j {
        assert names[i] in first && names[j] == rest[j - |first|] && names[j] in rest;
      }
    }
  }

  // ---- pass one ------------------------------------------------------------

  /** The directory after the first pass. */
  function FirstPass(d: Dir): Dir {
    map n | n in d && !DeadSession(d, n) && !DeadLog(d, n) :: d[n]
  }

  /** The directory after the dead sessions among `seen` and their logs are gone. */
  ghost function SocketsGone(d: Dir, seen: seq<Name>): Dir {
    map n | n in d && !(DeadSession(d, n) && n in seen) && !(DeadLog(d, n) && Stem(n) in seen) :: d[n]
  }

  lemma SocketsGoneNone(d: Dir)
    ensures SocketsGone(d, []) == d
  {
  }

  lemma SocketsGoneSkip(d: Dir, seen: seq<Name>, n: Name)
    requires !DeadSession(d, n)
    ensures SocketsGone(d, seen + [n]) == SocketsGone(d, seen)
  {
  }

  lemma SocketsGoneMore(d: Dir, seen: seq<Name>, n: Name)
    requires DeadSession(d, n) && n != ""
    ensures SocketsGone(d, seen + [n]) == SocketsGone(d, seen) - {n} - {n + DOT_LOG}
  {
    LogOfName(n);
    forall m | m in d && HasLogExtension(m) ensures m == n + DOT_LOG <==> Stem(m) == n {
      NameOfLog(m);
    }
  }

  lemma SocketsGoneAll(d: Dir, names: seq<Name>)
    requires NamesOf(d, names)
    ensures SocketsGone(d, names) == FirstPass(d)
  {
    forall n | n in d ensures n in SocketsGone(d, names) <==> n in FirstPass(d) {
      if DeadLog(d, n) {
        assert Stem(n) in names;
      }
    }
  }

  /** It leaves no dead session. */
  lemma FirstPassLeavesNoneDead(d: Dir)
    ensures DeadSessions(FirstPass(d)) == {} && FirstPass(FirstPass(d)) == FirstPass(d)
  {
    var d1 := FirstPass(d);
    forall n | n in d1 ensures !DeadSession(d1, n) && !DeadLog(d1, n) {
    }
    assert FirstPass(d1) == d1;
  }

  // ---- pass two ------------------------------------------------------------

  /** The directory after the logs `seen` were examined one after another. */
  function Swept(d: Dir, seen: seq<Name>): (r: Dir)
    ensures r.Keys <= d.Keys
    ensures forall n :: n in d && n !in seen ==> n in r
    ensures forall n :: n in r ==> r[n] == d[n]
  {
    if seen == [] then d
    else
      var r, n := Swept(d, seen[..|seen| - 1]), seen[|seen| - 1];
      if OrphanLog(r, n) then r - {n} else r
  }

  lemma SweptSnoc(d: Dir, seen: seq<Name>, n: Name)
    ensures Swept(d, seen + [n]) == if OrphanLog(Swept(d, seen), n) then Swept(d, seen) - {n} else Swept(d, seen)
  {
    assert (seen + [n])[..|seen|] == seen;
  }

  /** How many of them were removed. */
  function SweptCount(d: Dir, seen: seq<Name>): nat {
    if seen == [] then 0
    else
      var before := seen[..|seen| - 1];
      SweptCount(d, before) + (if OrphanLog(Swept(d, before), seen[|seen| - 1]) then 1 else 0)
  }

  lemma OneMoreGone(d: Dir, r: Dir, n: Name)
    requires r.Keys <= d.Keys && n in r
    ensures |d.Keys - (r - {n}).Keys| == |d.Keys - r.Keys| + 1
  {
    assert d.Keys - (r - {n}).Keys == (d.Keys - r.Keys) + {n};
  }

  lemma {:induction false} SweptCountIsExact(d: Dir, seen: seq<Name>)
    ensures SweptCount(d, seen) == |d.Keys - Swept(d, seen).Keys|
  {
    if seen == [] {
      assert d.Keys - d.Keys == {};
    } else {
      var before, n := seen[..|seen| - 1], seen[|seen| - 1];
      SweptCountIsExact(d, before);
      var r := Swept(d, before);
      if OrphanLog(r, n) {
        OneMoreGone(d, r, n);
        assert Swept(d, seen) == r - {n};
      } else {
        assert Swept(d, seen) == r;
      }
    }
  }

  /** What was removed stays removed, what was passed over unremoved stays. */
  lemma {:induction false} SweptFurther(d: Dir, a: seq<Name>, b: seq<Name>)
    ensures Swept(d, a + b).Keys <= Swept(d, a).Keys
    ensures forall n :: n in Swept(d, a) && n !in b ==> n in Swept(d, a + b)
    decreases |b|
  {
    if b == [] {
      assert a + b == a;
    } else {
      var b0, n := b[..|b| - 1], b[|b| - 1];
      assert a + b == (a + b0) + [n];
      SweptFurther(d, a, b0);
      SweptSnoc(d, a + b0, n);
      assert forall m :: m in b0 ==> m in b;
    }
  }

  /** Only logs go. */
  lemma {:induction false} SweptTakesLogs(d: Dir, seen: seq<Name>, n: Name)
    requires n in d && n !in Swept(d, seen)
    ensures HasLogExtension(n) && n != APP_LOG
  {
    if seen == [] {
    } else {
      var before := seen[..|seen| - 1];
      if n !in Swept(d, before) {
        SweptTakesLogs(d, before, n);
      }
    }
  }

  lemma {:induction false} OrphanGoes(d: Dir, seen: seq<Name>, n: Name)
    requires n in seen && OrphanLog(d, n)
    ensures n !in Swept(d, seen)
  {
    var before, last := seen[..|seen| - 1], seen[|seen| - 1];
    if n == last {
    } else {
      assert seen == before + [last];
      OrphanGoes(d, before, n);
    }
  }

  // ---- logs of logs --------------------------------------------------------

  /** The log `m` belongs to something that is itself an orphaned log. */
  predicate Chained(d: Dir, m: Name) {
    m in d && HasLogExtension(m) && m != APP_LOG && Exists(d, Stem(m)) && OrphanLog(d, Stem(m))
  }

  predicate Unchained(d: Dir) {
    forall m :: m in d ==> !Chained(d, m)
  }

  function WithoutOrphans(d: Dir, seen: seq<Name>): Dir {
    map n | n in d && !(OrphanLog(d, n) && n in seen) :: d[n]
  }

  lemma OrphanStays(d: Dir, seen: seq<Name>, n: Name)
    requires Unchained(d) && n in WithoutOrphans(d, seen)
    ensures OrphanLog(WithoutOrphans(d, seen), n) <==> OrphanLog(d, n)
  {
    if HasLogExtension(n) && n != APP_LOG && Exists(d, Stem(n)) {
      assert !Chained(d, n);
    }
  }

  /** Without chains the order of the listing does not matter. */
  lemma {:induction false} SweptRemovesOrphans(d: Dir, seen: seq<Name>)
    requires Unchained(d) && Distinct(seen)
    ensures Swept(d, seen) == WithoutOrphans(d, seen)
  {
    if seen == [] {
      assert WithoutOrphans(d, seen) == d;
    } else {
      var before, n := seen[..|seen| - 1], seen[|seen| - 1];
      assert seen == before + [n];
      SweptRemovesOrphans(d, before);
      if n in Swept(d, before) {
        OrphanStays(d, before, n);
      }
      assert Swept(d, seen) == WithoutOrphans(d, seen);
    }
  }

  /** With one it does: read the outer log first, and it is left behind without its
      session; read the inner one first, and both go. */
  lemma ChainDependsOnOrder(d: Dir, m: Name) returns (outer: seq<Name>, inner: seq<Name>)
    requires "" !in d && Chained(d, m)
    ensures NamesOf(d, outer) && OrphanLog(Swept(d, outer), m)
    ensures NamesOf(d, inner) && m !in Swept(d, inner)
  {
    var stem := Stem(m);
    assert m != stem && stem in d;
    var rest;
    outer, rest := ListingFrom(d, [m, stem]);
    OuterStays(d, m, rest);
    inner, rest := ListingFrom(d, [stem, m]);
    InnerFirst(d, m, rest);
  }

  lemma OuterStays(d: Dir, m: Name, rest: seq<Name>)
    requires Chained(d, m) && m !in rest
    ensures OrphanLog(Swept(d, [m, Stem(m)] + rest), m)
  {
    var stem := Stem(m);
    SweptSnoc(d, [], m);
    SweptSnoc(d, [m], stem);
    assert [] + [m] == [m] && [m] + [stem] == [m, stem];
    assert Swept(d, [m]) == d && Swept(d, [m, stem]) == d - {stem};
    SweptFurther(d, [m, stem], rest);
  }

  lemma InnerFirst(d: Dir, m: Name, rest: seq<Name>)
    requires Chained(d, m)
    ensures m !in Swept(d, [Stem(m), m] + rest)
  {
    var stem := Stem(m);
    SweptSnoc(d, [], stem);
    SweptSnoc(d, [stem], m);
    assert [] + [stem] == [stem] && [stem] + [m] == [stem, m];
    assert Swept(d, [stem]) == d - {stem};
    assert OrphanLog(d - {stem}, m);
    SweptFurther(d, [stem, m], rest);
  }

  // ---- both passes ---------------------------------------------------------

  /** `e` is what some `rm -a` leaves of `d`: the second listing comes in some order. */
  ghost predicate RmRun(d: Dir, e: Dir) {
    exists names :: NamesOf(FirstPass(d), names) && e == Swept(FirstPass(d), names)
  }

  /** The directory after the dead sessions and their logs, and then the orphaned
      logs, have all gone at once. */
  function Sweep(d: Dir): Dir {
    map n | n in FirstPass(d) && !OrphanLog(FirstPass(d), n) :: d[n]
  }

  lemma SweptIsSweep(d: Dir, names: seq<Name>)
    requires Unchained(FirstPass(d)) && NamesOf(FirstPass(d), names)
    ensures Swept(FirstPass(d), names) == Sweep(d)
  {
    SweptRemovesOrphans(FirstPass(d), names);
  }

  /** The two passes are one sweep, whatever the order of the listings, if and only
      if the first one leaves no log of an orphaned log. */
  lemma TwoPasses(d: Dir)
    requires "" !in d
    ensures Unchained(FirstPass(d)) <==> forall e | RmRun(d, e) :: e == Sweep(d)
  {
    var d1 := FirstPass(d);
    if Unchained(d1) {
      forall e | RmRun(d, e) ensures e == Sweep(d) {
        var names :| NamesOf(d1, names) && e == Swept(d1, names);
        SweptIsSweep(d, names);
      }
    } else {
      var m :| m in d1 && Chained(d1, m);
      var outer, inner := ChainDependsOnOrder(d1, m);
      assert RmRun(d, Swept(d1, inner)) && m in Sweep(d);
    }
  }

  /** Dead sessions stay dead and gone. */
  lemma RunLeavesNoneDead(d: Dir, e: Dir)
    requires RmRun(d, e)
    ensures DeadSessions(e) == {} && FirstPass(e) == e && "" !in e
  {
    var names :| NamesOf(FirstPass(d), names) && e == Swept(FirstPass(d), names);
    forall n ensures !DeadSession(e, n) {
      assert n in e ==> n in FirstPass(d) && e[n] == d[n];
    }
    assert FirstPass(e) == e;
  }

  lemma IdleWithoutOrphans(e: Dir, e': Dir)
    requires FirstPass(e) == e && OrphanLogs(e) == {} && RmRun(e, e')
    ensures e' == e
  {
    var names :| NamesOf(e, names) && e' == Swept(e, names);
    assert Unchained(e) by {
      assert forall n | n in e :: n !in OrphanLogs(e);
    }
    SweptIsSweep(e, names);
    assert forall n | n in e :: n !in OrphanLogs(e);
  }

  /** What a second run may still remove: exactly what the first left orphaned. */
  lemma SecondRunTakesOrphans(d: Dir, e: Dir)
    requires RmRun(d, e)
    ensures OrphanLogs(e) == {} <==> forall e' | RmRun(e, e') :: e' == e
  {
    RunLeavesNoneDead(d, e);
    if OrphanLogs(e) == {} {
      forall e' | RmRun(e, e') ensures e' == e {
        IdleWithoutOrphans(e, e');
      }
    } else {
      var n :| n in OrphanLogs(e);
      var names, rest := ListingFrom(e, []);
      OrphanGoes(e, names, n);
      assert RmRun(e, Swept(e, names));
    }
  }

  /** A second `rm -a` removes nothing, whatever the order of any listing, if and
      only if the first pass leaves no log of an orphaned log. */
  lemma SecondRunIsIdle(d: Dir)
    requires "" !in d
    ensures Unchained(FirstPass(d)) <==> forall e, e' | RmRun(d, e) && RmRun(e, e') :: e' == e
  {
    var d1 := FirstPass(d);
    if Unchained(d1) {
      forall e, e' | RmRun(d, e) && RmRun(e, e') ensures e' == e {
        TwoPasses(d);
        SweepLeavesNoOrphans(d);
        SecondRunTakesOrphans(d, e);
      }
    } else {
      var m :| m in d1 && Chained(d1, m);
      var outer, inner := ChainDependsOnOrder(d1, m);
      var e := Swept(d1, outer);
      assert RmRun(d, e) && m in OrphanLogs(e);
      SecondRunTakesOrphans(d, e);
      var e' :| RmRun(e, e') && e' != e;
    }
  }

  lemma SweepLeavesNoOrphans(d: Dir)
    requires Unchained(FirstPass(d))
    ensures OrphanLogs(Sweep(d)) == {}
  {
    var d1, e := FirstPass(d), Sweep(d);
    forall n | n in e ensures !OrphanLog(e, n) {
      assert !Chained(d1, n) && !OrphanLog(d1, n);
    }
  }

  /** Sweeping twice is sweeping once. */
  lemma SweepTwice(d: Dir)
    requires Unchained(FirstPass(d))
    ensures Sweep(Sweep(d)) == Sweep(d) && DeadSessions(Sweep(d)) == {}
  {
    var e := Sweep(d);
    FirstPassLeavesNoneDead(d);
    SweepLeavesNoOrphans(d);
    assert forall n | n in e :: !DeadSession(FirstPass(d), n);
    assert forall n | n in e :: !DeadSession(e, n) && n !in OrphanLogs(e);
    assert FirstPass(e) == e;
  }

  /** No session is named like a log, and no log is the log of a log. */
  predicate Tidy(d: Dir) {
    forall n :: n in d && HasLogExtension(n) ==> !HasLogExtension(Stem(n)) && (d[n].Plain? || d[n].Dangling?)
  }

  /** Then there are no chains, and what goes can be told from the directory as it
      was: dead sessions, their logs, and logs with nothing at their stem. */
  lemma TidySweep(d: Dir)
    requires Tidy(d)
    ensures Unchained(FirstPass(d))
    ensures Sweep(d) == map n | n in d && !DeadSession(d, n) && !DeadLog(d, n) && !OrphanLog(d, n) :: d[n]
  {
    var d1 := FirstPass(d);
    forall n | n in d1 && HasLogExtension(n) ensures OrphanLog(d1, n) <==> OrphanLog(d, n) {
      assert !DeadSession(d, Stem(n));
    }
  }

  // ---- who is safe ---------------------------------------------------------

  /** Some order of the listing removes the log `n`: its session is not there, or
      may itself be removed as a log before it. */
  predicate Doomed(d: Dir, n: Name)
    decreases |n|
  {
    HasLogExtension(n) && n != APP_LOG && (!Exists(d, Stem(n)) || Doomed(d, Stem(n)))
  }

  lemma {:induction false} UndoomedStays(d: Dir, seen: seq<Name>, n: Name)
    requires n in d && !Doomed(d, n)
    ensures n in Swept(d, seen)
    decreases |seen|
  {
    if seen == [] {
    } else {
      var before := seen[..|seen| - 1];
      UndoomedStays(d, before, n);
      if HasLogExtension(n) && Stem(n) in d && !Doomed(d, Stem(n)) {
        UndoomedStays(d, before, Stem(n));
      }
    }
  }

  /** The order that removes a doomed log: the chain of its sessions, innermost first. */
  lemma {:induction false} DoomedGoes(d: Dir, n: Name) returns (first: seq<Name>)
    requires n in d && Doomed(d, n)
    ensures Distinct(first) && forall m <- first :: m in d && |m| <= |n|
    ensures n !in Swept(d, first)
    decreases |n|
  {
    var stem := Stem(n);
    var inner: seq<Name> := [];
    if Exists(d, stem) {
      inner := DoomedGoes(d, stem);
    }
    first := inner + [n];
    SweptSnoc(d, inner, n);
  }

  /** An entry is kept by every `rm -a` exactly when it survives the first pass and
      is not doomed after it ... */
  lemma KeptByEveryRun(d: Dir, n: Name)
    requires "" !in d && n in d
    ensures (forall e | RmRun(d, e) :: n in e) <==> n in FirstPass(d) && !Doomed(FirstPass(d), n)
  {
    var d1 := FirstPass(d);
    if n in d1 && !Doomed(d1, n) {
      forall e | RmRun(d, e) ensures n in e {
        var names :| NamesOf(d1, names) && e == Swept(d1, names);
        UndoomedStays(d1, names, n);
      }
    } else {
      var first: seq<Name> := [];
      if n in d1 {
        first := DoomedGoes(d1, n);
      }
      var names, rest := ListingFrom(d1, first);
      SweptFurther(d1, first, rest);
      assert RmRun(d, Swept(d1, names)) && n !in Swept(d1, names);
    }
  }

  /** ... and lost to every one exactly when it does not, or is orphaned by then. */
  lemma LostToEveryRun(d: Dir, n: Name)
    requires "" !in d && n in d
    ensures (forall e | RmRun(d, e) :: n !in e) <==> n !in FirstPass(d) || OrphanLog(FirstPass(d), n)
  {
    var d1 := FirstPass(d);
    if n !in d1 || OrphanLog(d1, n) {
      forall e | RmRun(d, e) ensures n !in e {
        var names :| NamesOf(d1, names) && e == Swept(d1, names);
        if n in d1 {
          OrphanGoes(d1, names, n);
        }
      }
    } else {
      var names, rest := ListingFrom(d1, [n]);
      SweptSnoc(d1, [], n);
      assert [] + [n] == [n];
      SweptFurther(d1, [n], rest);
      assert RmRun(d, Swept(d1, names)) && n in Swept(d1, names);
    }
  }

  /** Nothing a live session owns is touched, in any directory: its socket stays,
      and so does its log. */
  lemma LiveSessionsKeepTheirFiles(d: Dir, e: Dir, n: Name)
    requires RmRun(d, e) && n in d && d[n].Live? && !HasLogExtension(n) && n != ""
    ensures n in e && (n + DOT_LOG in d ==> n + DOT_LOG in e)
  {
    LogOfName(n);
    var d1 := FirstPass(d);
    var names :| NamesOf(d1, names) && e == Swept(d1, names);
    UndoomedStays(d1, names, n);
    if n + DOT_LOG in d {
      assert n + DOT_LOG in d1 && !Doomed(d1, n) && !Doomed(d1, n + DOT_LOG);
      UndoomedStays(d1, names, n + DOT_LOG);
    }
  }

  /** A live session named like a log is safe, whatever the order of the listing, if
      and only if it is not the log of a dead session and not doomed. */
  lemma LiveSessionNamedLikeALog(d: Dir, n: Name)
    requires "" !in d && n in d && d[n].Live? && HasLogExtension(n)
    ensures (forall e | RmRun(d, e) :: n in e) <==> !DeadSession(d, Stem(n)) && !Doomed(FirstPass(d), n)
  {
    KeptByEveryRun(d, n);
  }

  /** The second pass counts only logs, and none whose session the first one counted. */
  lemma NobodyCountedTwice(d: Dir, e: Dir)
    requires RmRun(d, e)
    ensures forall n | n in FirstPass(d) && n !in e :: HasLogExtension(n) && Stem(n) !in DeadSessions(d)
  {
    var d1 := FirstPass(d);
    var names :| NamesOf(d1, names) && e == Swept(d1, names);
    forall n | n in d1 && n !in e ensures HasLogExtension(n) && Stem(n) !in DeadSessions(d) {
      SweptTakesLogs(d1, names, n);
    }
  }

  // ---- in terms of names and entries ---------------------------------------

  /** Who is counted by the first pass. */
  lemma DeadSessionsAre(d: Dir)
    requires "" !in d
    ensures DeadSessions(d) == set n | n in d && d[n].Stale? && n[0] != '.' && !IsLogName(n)
  {
    forall n | n in d ensures HasLogExtension(n) <==> IsLogName(n) {
      ExtensionIsEnding(n);
    }
  }

  /** Whatever the order of the listing, an entry not named like a log is gone if and
      only if it is a stale socket whose name does not begin with a dot.  Nothing is
      ever added or altered, and the application's own log stays. */
  lemma WhoIsRemoved(d: Dir, e: Dir, n: Name)
    requires RmRun(d, e) && n != ""
    ensures n in e ==> n in d && e[n] == d[n]
    ensures n in d && !IsLogName(n) ==> (n !in e <==> d[n].Stale? && n[0] != '.')
    ensures n in d && n == ".ztch-app.log" ==> n in e
  {
    var d1 := FirstPass(d);
    var names :| NamesOf(d1, names) && e == Swept(d1, names);
    ExtensionIsEnding(n);
    if n in d1 && (!IsLogName(n) || n == APP_LOG) {
      UndoomedStays(d1, names, n);
    }
    if n == ".ztch-app.log" {
      assert Stem(n)[0] == '.';
    }
  }

  lemma OnlyTheAppsOwnLog(stem: Name)
    requires stem != ".ztch-app"
    ensures stem + DOT_LOG != APP_LOG
  {
    assert APP_LOG[..9] == ".ztch-app" && (stem + DOT_LOG)[..|stem|] == stem;
  }

  /** What becomes of the log of `stem` in the second pass. */
  lemma LogAfterFirstPass(d1: Dir, names: seq<Name>, stem: Name)
    requires NamesOf(d1, names) && stem != "" && !HasLogExtension(stem) && stem != ".ztch-app"
    requires stem + DOT_LOG in d1
    ensures stem + DOT_LOG in Swept(d1, names) <==> Exists(d1, stem)
  {
    LogOfName(stem);
    OnlyTheAppsOwnLog(stem);
    if Exists(d1, stem) {
      assert !Doomed(d1, stem) && !Doomed(d1, stem + DOT_LOG);
      UndoomedStays(d1, names, stem + DOT_LOG);
    } else {
      OrphanGoes(d1, names, stem + DOT_LOG);
    }
  }

  /** The log of something not itself named like a log is gone if and only if that
      something is such a socket, or is not there, or is a link to nothing. */
  lemma WhichLogsAreRemoved(d: Dir, e: Dir, stem: Name)
    requires RmRun(d, e) && stem != "" && !IsLogName(stem)
    requires stem + ".log" in d && stem != ".ztch-app"
    ensures stem + ".log" !in e <==>
      || (stem in d && d[stem].Stale? && stem[0] != '.')
      || (stem != "." && stem != ".." && (stem !in d || d[stem].Dangling?))
  {
    var d1 := FirstPass(d);
    var names :| NamesOf(d1, names) && e == Swept(d1, names);
    LogOfName(stem);
    ExtensionIsEnding(stem);
    if DeadSession(d, stem) {
      assert DeadLog(d, stem + DOT_LOG);
    } else {
      LogAfterFirstPass(d1, names, stem);
    }
  }

  class SessionDir {
    var entries: Dir

    constructor (entries: Dir)
      ensures this.entries == entries
    {
      this.entries := entries;
    }

    /** Read the directory, in whatever order. */
    method List() returns (names: seq<Name>)
      requires "" !in entries
      ensures NamesOf(entries, names)
    {
      var left := entries.Keys;
      names := [];
      while left != {}
        invariant left <= entries.Keys
        invariant Distinct(names)
        invariant forall n :: n in names <==> n in entries.Keys - left
        decreases left
      {
        var n :| n in left;
        assert n !in names;
        left := left - {n};
        names := names + [n];
      }
    }

    method RemoveIfExists(n: Name)
      modifies this
      ensures entries == old(entries) - {n}
    {
      entries := entries - {n};
    }

    /** First pass. */
    method RmStaleSockets() returns (count: nat)
      requires "" !in entries
      modifies this
      ensures entries == FirstPass(old(entries))
      ensures count == |DeadSessions(old(entries))|
    {
      ghost var d := entries;
      var listing := List();
      count := 0;
      SocketsGoneNone(d);
      ghost var dead: set<Name> := {};
      for j := 0 to |listing|
        invariant entries == SocketsGone(d, listing[..j])
        invariant dead == (set n | n in listing[..j] && DeadSession(d, n)) && count == |dead|
      {
        var n := listing[j];
        assert listing[..j + 1] == listing[..j] + [n];
        assert n in d && n !in listing[..j];
        if HasLogExtension(n) || Hidden(n) || entries[n] != Stale {
          SocketsGoneSkip(d, listing[..j], n);
        } else {
          SocketsGoneMore(d, listing[..j], n);
          RemoveIfExists(n);
          RemoveIfExists(n + DOT_LOG);
          count := count + 1;
          dead := dead + {n};
        }
      }
      assert listing[..|listing|] == listing;
      assert dead == DeadSessions(d);
      SocketsGoneAll(d, listing);
    }

    /** Second pass, over the directory as the first one left it. */
    method RmOrphanedLogs() returns (count: nat, ghost names: seq<Name>)
      requires "" !in entries
      modifies this
      ensures NamesOf(old(entries), names)
      ensures entries == Swept(old(entries), names)
      ensures count == |old(entries).Keys - entries.Keys|
    {
      ghost var d := entries;
      var listing := List();
      names := listing;
      count := 0;
      assert listing[..0] == [];
      for j := 0 to |listing|
        invariant entries == Swept(d, listing[..j]) && count == SweptCount(d, listing[..j])
      {
        var n := listing[j];
        assert listing[..j + 1][..j] == listing[..j];
        assert n in d && n !in listing[..j];
        var removed := ExamineLog(n);
        if removed {
          count := count + 1;
        }
      }
      assert listing[..|listing|] == listing;
      SweptCountIsExact(d, listing);
    }

    method ExamineLog(n: Name) returns (removed: bool)
      requires n in entries
      modifies this
      ensures removed <==> OrphanLog(old(entries), n)
      ensures entries == if removed then old(entries) - {n} else old(entries)
    {
      removed := HasLogExtension(n) && n != APP_LOG && !Exists(entries, Stem(n));
      if removed {
        RemoveIfExists(n);
      }
    }

    /** `rm -a`. */
    method RmAll() returns (count: nat)
      requires "" !in entries
      modifies this
      ensures RmRun(old(entries), entries)
      ensures count == |DeadSessions(old(entries))| + |FirstPass(old(entries)).Keys - entries.Keys|
      ensures Unchained(FirstPass(old(entries))) ==> entries == Sweep(old(entries))
    {
      ghost var d := entries;
      var dead := RmStaleSockets();
      ghost var names;
      var orphans;
      orphans, names := RmOrphanedLogs();
      count := dead + orphans;
      if Unchained(FirstPass(d)) {
        SweptIsSweep(d, names);
      }
    }
  }
}
