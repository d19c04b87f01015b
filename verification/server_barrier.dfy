/**
 The barrier: for each version issued, the servers that have not passed it yet, pruned up to the last version that all
 have passed. It must agree with the full history of issue and pass events.
 */
module Barriers {

  datatype Version = Version(number: nat, waiting: seq<nat>)

  type Barrier = seq<Version>

  const Start: Barrier := [Version(0, [])]

  // ---------------------------------------------------------------------------------------------
  // The operations
  // ---------------------------------------------------------------------------------------------

  /** Remove a server from index i on, each time by moving the last element into its place. */
  function RemoveFrom(l: seq<nat>, i: nat, sid: nat): (r: seq<nat>)
    requires i <= |l|
    ensures forall x :: x in r <==> x in l && (x != sid || x in l[..i])
    decreases |l| - i
  {
    if i == |l| then
      assert l[..i] == l;
      l
    else if l[i] == sid then
      var l' := l[i := l[|l| - 1]][..|l| - 1];
      SwapOut(l, i);
      RemoveFrom(l', i, sid)
    else
      assert l[..i + 1] == l[..i] + [l[i]];
      RemoveFrom(l, i + 1, sid)
  }

  lemma {:induction false} SwapOut(l: seq<nat>, i: nat)
    requires i < |l|
    ensures var l' := l[i := l[|l| - 1]][..|l| - 1];
            l'[..i] == l[..i] && forall x :: x in l <==> x in l' || x == l[i]
  {
    var n := |l| - 1;
    var l' := l[i := l[n]][..n];
    forall x | x in l
      ensures x in l' || x == l[i]
    {
      var k :| 0 <= k < |l| && l[k] == x;
      if k != i {
        assert k < n ==> l'[k] == x;
        assert k == n ==> l'[i] == x;
      }
    }
    forall x | x in l'
      ensures x in l
    {
      var k :| 0 <= k < |l'| && l'[k] == x;
      assert x == l[k] || x == l[n];
    }
  }

  /** The position of the last version nobody waits for, or the length when there is none. */
  function LastEmpty(b: Barrier): (k: nat)
    ensures k <= |b|
    ensures k < |b| ==> b[k].waiting == []
    ensures forall j :: 0 <= j < |b| && (k == |b| || k < j) ==> b[j].waiting != []
  {
    if b == [] then 0
    else
      var n := |b| - 1;
      if b[n].waiting == [] then n
      else
        var k := LastEmpty(b[..n]);
        assert forall j :: 0 <= j < n ==> b[..n][j] == b[j];
        if k == n then |b| else k
  }

  function Pruned(b: Barrier): (r: Barrier)
    ensures |r| <= |b| && (b != [] ==> r != [])
  {
    if LastEmpty(b) == |b| then b else b[LastEmpty(b)..]
  }

  function AfterIssue(b: Barrier, v: nat, servers: seq<nat>): (r: Barrier)
    ensures r != []
  {
    Pruned(b + [Version(v, servers)])
  }

  /** The first version that is not below v. */
  function Find(b: Barrier, v: nat): (i: nat)
    ensures i <= |b|
    ensures forall j :: 0 <= j < i ==> b[j].number < v
    ensures i < |b| ==> v <= b[i].number
  {
    if b == [] || v <= b[0].number then 0
    else
      var i := Find(b[1..], v);
      assert forall j :: 1 <= j < 1 + i ==> b[j] == b[1..][j - 1];
      1 + i
  }

  function AfterPass(b: Barrier, v: nat, sid: nat): (r: Barrier)
    ensures b != [] ==> r != []
  {
    var i := Find(b, v);
    if i < |b| && b[i].number == v then Pruned(b[i := Version(v, RemoveFrom(b[i].waiting, 0, sid))]) else b
  }

  function Min(b: Barrier): nat
    requires b != []
  {
    b[0].number
  }

  // ---------------------------------------------------------------------------------------------
  // The full history
  // ---------------------------------------------------------------------------------------------

  datatype Event = Issued(version: nat, servers: seq<nat>) | PassedBy(version: nat, server: nat)

  function Last(h: seq<Event>): Event
    requires h != []
  {
    h[|h| - 1]
  }

  function Init(h: seq<Event>): seq<Event>
    requires h != []
  {
    h[..|h| - 1]
  }

  /** The versions there are: 0 and those issued. */
  predicate Known(h: seq<Event>, v: nat) {
    if h == [] then v == 0 else (Last(h).Issued? && Last(h).version == v) || Known(Init(h), v)
  }

  function Newest(h: seq<Event>): nat {
    if h == [] then 0 else if Last(h).Issued? then Last(h).version else Newest(Init(h))
  }

  /** What the callers assert: versions are issued in increasing order. */
  predicate InOrder(h: seq<Event>) {
    h == [] || (InOrder(Init(h)) && (Last(h).Issued? ==> Newest(Init(h)) < Last(h).version))
  }

  /** The servers listed for a version that have not passed it since it was issued. */
  function Outstanding(h: seq<Event>, v: nat): set<nat> {
    if h == [] || Last(h).version != v then (if h == [] then {} else Outstanding(Init(h), v))
    else match Last(h)
      case Issued(_, servers) => set x | x in servers
      case PassedBy(_, sid) => Outstanding(Init(h), v) - {sid}
  }

  /** A version everyone listed for has passed. */
  predicate Cleared(h: seq<Event>, v: nat) {
    Known(h, v) && Outstanding(h, v) == {}
  }

  /** The barrier after a history. */
  function Replayed(h: seq<Event>): Barrier {
    if h == [] then Start
    else match Last(h)
      case Issued(v, servers) => AfterIssue(Replayed(Init(h)), v, servers)
      case PassedBy(v, sid) => AfterPass(Replayed(Init(h)), v, sid)
  }

  // ---------------------------------------------------------------------------------------------
  // The barrier refines the history
  // ---------------------------------------------------------------------------------------------

  ghost predicate Lower(b: Barrier, i: int, j: int) {
    0 <= i < j < |b| ==> b[i].number < b[j].number
  }

  ghost predicate Increasing(b: Barrier) {
    forall i, j :: Lower(b, i, j)
  }

  ghost predicate Awaited(b: Barrier, i: int) {
    0 < i < |b| ==> b[i].waiting != []
  }

  /** Versions strictly increase, nobody waits for the first, and someone waits for every other one. */
  ghost predicate Shaped(b: Barrier) {
    b != [] && Increasing(b) && b[0].waiting == [] && forall i :: Awaited(b, i)
  }

  predicate Holds(b: Barrier, v: nat) {
    Find(b, v) < |b| && b[Find(b, v)].number == v
  }

  function Waiting(b: Barrier, v: nat): set<nat>
    requires Holds(b, v)
  {
    set x | x in b[Find(b, v)].waiting
  }

  /** From the barrier's minimum on, it holds exactly the known versions, each with the servers outstanding. */
  ghost predicate Tracks(b: Barrier, h: seq<Event>, v: nat) {
    && (b != [] && Min(b) <= v ==> (Known(h, v) <==> Holds(b, v)))
    && (Holds(b, v) ==> Waiting(b, v) == Outstanding(h, v))
  }

  ghost predicate Agrees(b: Barrier, h: seq<Event>) {
    b != [] && Increasing(b) && b[0].waiting == [] && b[|b| - 1].number == Newest(h) && forall v :: Tracks(b, h, v)
  }

  lemma {:induction false} FindAt(b: Barrier, i: nat)
    requires Increasing(b) && i < |b|
    ensures Find(b, b[i].number) == i
  {
    var k := Find(b, b[i].number);
    assert Lower(b, k, i);
  }

  lemma {:induction false} KnownBelow(h: seq<Event>, v: nat)
    requires InOrder(h) && Known(h, v)
    ensures v <= Newest(h)
  {
    if h != [] && !(Last(h).Issued? && Last(h).version == v) {
      KnownBelow(Init(h), v);
    }
  }

  /** Pruning drops versions below the last one nobody waits for, and nothing else. */
  lemma {:induction false} PrunedAgrees(b: Barrier, h: seq<Event>)
    requires Agrees(b, h)
    ensures Agrees(Pruned(b), h) && Shaped(Pruned(b))
  {
    var k := LastEmpty(b);
    var c := b[k..];
    assert k < |b|;
    forall i, j ensures Lower(c, i, j) && Awaited(c, i) {
      assert Lower(b, k + i, k + j);
    }
    forall v ensures Tracks(c, h, v) {
      SuffixTracks(b, k, h, v);
    }
  }

  lemma {:induction false} SuffixTracks(b: Barrier, k: nat, h: seq<Event>, v: nat)
    requires k < |b| && Increasing(b) && Increasing(b[k..]) && Tracks(b, h, v)
    ensures Tracks(b[k..], h, v)
  {
    var c, i := b[k..], Find(b, v);
    assert Lower(b, 0, k);
    if Holds(c, v) {
      FindAt(b, k + Find(c, v));
    }
    if Min(c) <= v && Holds(b, v) {
      assert k <= i by { assert Lower(b, i, k); }
      FindAt(c, i - k);
    }
  }

  lemma {:induction false} IssueAgrees(b: Barrier, h: seq<Event>, v: nat, servers: seq<nat>)
    requires Agrees(b, h) && InOrder(h) && Newest(h) < v
    ensures var e := Issued(v, servers); Agrees(AfterIssue(b, v, servers), h + [e]) && Shaped(AfterIssue(b, v, servers))
  {
    var e, c := Issued(v, servers), b + [Version(v, servers)];
    var h' := h + [e];
    assert Init(h') == h && Last(h') == e;
    forall i, j ensures Lower(c, i, j) {
      assert Lower(b, i, j) && Lower(b, i, |b| - 1);
    }
    forall w ensures Tracks(c, h', w) {
      assert Tracks(b, h, w);
      if w == v {
        FindAt(c, |b|);
      } else {
        if Holds(b, w) {
          FindAt(c, Find(b, w));
        }
        if Holds(c, w) {
          FindAt(b, Find(c, w));
        }
      }
    }
    PrunedAgrees(c, h');
  }

  lemma {:induction false} PassTracks(b: Barrier, h: seq<Event>, v: nat, sid: nat, i: nat, w: nat)
    requires Increasing(b) && i < |b| && b[i].number == v && Tracks(b, h, w)
    requires Increasing(b[i := Version(v, RemoveFrom(b[i].waiting, 0, sid))])
    ensures Tracks(b[i := Version(v, RemoveFrom(b[i].waiting, 0, sid))], h + [PassedBy(v, sid)], w)
  {
    var e := PassedBy(v, sid);
    var c := b[i := Version(v, RemoveFrom(b[i].waiting, 0, sid))];
    assert Init(h + [e]) == h && Last(h + [e]) == e;
    FindAt(b, i);
    if Holds(b, w) {
      FindAt(c, Find(b, w));
    }
    if Holds(c, w) {
      FindAt(b, Find(c, w));
    }
  }

  lemma {:induction false} PassAgrees(b: Barrier, h: seq<Event>, v: nat, sid: nat)
    requires Agrees(b, h) && Shaped(b)
    ensures var e := PassedBy(v, sid); Agrees(AfterPass(b, v, sid), h + [e]) && Shaped(AfterPass(b, v, sid))
  {
    var e, i := PassedBy(v, sid), Find(b, v);
    var h' := h + [e];
    assert Init(h') == h && Last(h') == e;
    if i < |b| && b[i].number == v {
      var c := b[i := Version(v, RemoveFrom(b[i].waiting, 0, sid))];
      forall j, k ensures Lower(c, j, k) {
        assert Lower(b, j, k);
      }
      forall w ensures Tracks(c, h', w) {
        assert Tracks(b, h, w);
        PassTracks(b, h, v, sid, i, w);
      }
      PrunedAgrees(c, h');
    } else {
      forall w ensures Tracks(b, h', w) {
        assert Tracks(b, h, w);
      }
    }
  }

  /** Whatever the history, the barrier agrees with it and has its shape. */
  lemma {:induction false} ReplayedAgrees(h: seq<Event>)
    requires InOrder(h)
    ensures Agrees(Replayed(h), h) && Shaped(Replayed(h))
  {
    if h != [] {
      var g := Init(h);
      ReplayedAgrees(g);
      assert g + [Last(h)] == h;
      match Last(h)
      case Issued(v, servers) => IssueAgrees(Replayed(g), g, v, servers);
      case PassedBy(v, sid) => PassAgrees(Replayed(g), g, v, sid);
    }
  }

  lemma {:induction false} AboveAwaited(b: Barrier, h: seq<Event>, v: nat)
    requires Agrees(b, h) && Shaped(b) && Min(b) < v && Known(h, v)
    ensures Outstanding(h, v) != {}
  {
    assert Tracks(b, h, v) && Awaited(b, Find(b, v));
    assert b[Find(b, v)].waiting[0] in Waiting(b, v);
  }

  /**
   Main result: the minimum the barrier reports is the greatest version, 0 or issued, that every server listed for it
   has passed since it was issued.
   */
  lemma {:induction false} MinIsGreatestCleared(h: seq<Event>)
    requires InOrder(h)
    ensures var b := Replayed(h);
            b != [] && Cleared(h, Min(b)) && forall v: nat :: Cleared(h, v) ==> v <= Min(b)
  {
    ReplayedAgrees(h);
    var b := Replayed(h);
    FindAt(b, 0);
    assert Tracks(b, h, Min(b));
    forall v: nat | Cleared(h, v)
      ensures v <= Min(b)
    {
      if Min(b) < v {
        AboveAwaited(b, h, v);
      }
    }
  }

  // ---------------------------------------------------------------------------------------------
  // Shape, without a history
  // ---------------------------------------------------------------------------------------------

  lemma {:induction false} PrunedShape(b: Barrier)
    requires b != [] && Increasing(b) && b[0].waiting == []
    ensures Shaped(Pruned(b)) && Min(b) <= Min(Pruned(b)) && Pruned(b)[|Pruned(b)| - 1] == b[|b| - 1]
  {
    var k := LastEmpty(b);
    forall i, j ensures Lower(b[k..], i, j) && Awaited(b[k..], i) {
      assert Lower(b, k + i, k + j);
    }
    assert Lower(b, 0, k);
  }

  lemma {:induction false} PrunedIdle(b: Barrier)
    requires Shaped(b)
    ensures Pruned(b) == b
  {
    assert Awaited(b, LastEmpty(b));
  }

  lemma {:induction false} IssueShape(b: Barrier, v: nat, servers: seq<nat>)
    requires Shaped(b) && b[|b| - 1].number < v
    ensures var r := AfterIssue(b, v, servers); Shaped(r) && Min(b) <= Min(r) <= v && r[|r| - 1].number == v
  {
    var c := b + [Version(v, servers)];
    forall i, j ensures Lower(c, i, j) {
      assert Lower(b, i, j) && Lower(b, i, |b| - 1);
    }
    PrunedShape(c);
    MinBelowLast(Pruned(c));
  }

  lemma {:induction false} MinBelowLast(b: Barrier)
    requires b != [] && Increasing(b)
    ensures Min(b) <= b[|b| - 1].number
  {
    assert Lower(b, 0, |b| - 1);
  }

  lemma {:induction false} LoweredIncreases(b: Barrier, i: nat, waiting: seq<nat>)
    requires Increasing(b) && i < |b|
    ensures Increasing(b[i := Version(b[i].number, waiting)])
  {
    var c := b[i := Version(b[i].number, waiting)];
    forall j, k ensures Lower(c, j, k) {
      assert Lower(b, j, k);
    }
  }

  lemma {:induction false} PassHits(b: Barrier, v: nat, sid: nat, i: nat, e: Version)
    requires i == Find(b, v) && i < |b| && b[i].number == v && e == Version(v, RemoveFrom(b[i].waiting, 0, sid))
    ensures AfterPass(b, v, sid) == Pruned(b[i := e])
  {
  }

  lemma {:induction false} NobodyLeft(l: seq<nat>, sid: nat)
    requires l == []
    ensures RemoveFrom(l, 0, sid) == []
  {
  }

  lemma {:induction false} PassMisses(b: Barrier, v: nat, sid: nat, i: nat)
    requires i == Find(b, v) && (i == |b| || b[i].number != v)
    ensures AfterPass(b, v, sid) == b
  {
  }

  lemma {:induction false} PassShape(b: Barrier, v: nat, sid: nat)
    requires Shaped(b)
    ensures var r := AfterPass(b, v, sid);
            Shaped(r) && Min(b) <= Min(r) && r[|r| - 1].number == b[|b| - 1].number
  {
    var i := Find(b, v);
    if i < |b| && b[i].number == v {
      var e := Version(v, RemoveFrom(b[i].waiting, 0, sid));
      PassHits(b, v, sid, i, e);
      NobodyLeft(b[0].waiting, sid);
      LoweredIncreases(b, i, e.waiting);
      PrunedShape(b[i := e]);
    } else {
      PassMisses(b, v, sid, i);
    }
  }

  // ---------------------------------------------------------------------------------------------
  // Restoring from a snapshot
  // ---------------------------------------------------------------------------------------------

  /** A barrier unpacked into a freshly constructed one, k times over: each time an entry (0, []) is left in front. */
  function Restored(k: nat, b: Barrier): (r: Barrier)
    ensures |r| == k + |b|
  {
    seq(k, i => Version(0, [])) + b
  }

  /** A barrier with a shape, behind what restores have left in front of it. */
  ghost predicate Sturdy(b: Barrier) {
    Shaped(Pruned(b)) && b == Restored(|b| - |Pruned(b)|, Pruned(b))
  }

  lemma {:induction false} LastEmptyBehind(k: nat, b: Barrier)
    requires LastEmpty(b) < |b|
    ensures LastEmpty(Restored(k, b)) == k + LastEmpty(b)
    ensures Pruned(Restored(k, b)) == Pruned(b)
  {
    var r := Restored(k, b);
    forall j | 0 <= j < |r| && k + LastEmpty(b) < j
      ensures r[j].waiting != []
    {
      assert r[j] == b[j - k];
    }
    LastEmptyIs(r, k + LastEmpty(b));
    assert r[k + LastEmpty(b)..] == b[LastEmpty(b)..];
  }

  lemma {:induction false} RestoredSturdy(k: nat, b: Barrier)
    requires Shaped(b)
    ensures Pruned(Restored(k, b)) == b && Sturdy(Restored(k, b))
  {
    LastEmptyBehind(k, b);
    PrunedIdle(b);
  }

  /** Another restore. */
  lemma {:induction false} RestoreAgain(b: Barrier)
    requires Sturdy(b)
    ensures Restored(1, b) == Restored(1 + (|b| - |Pruned(b)|), Pruned(b))
    ensures Sturdy(Restored(1, b)) && Pruned(Restored(1, b)) == Pruned(b)
  {
    assert Restored(1, b) == Restored(1 + (|b| - |Pruned(b)|), Pruned(b));
    RestoredSturdy(1 + (|b| - |Pruned(b)|), Pruned(b));
  }

  /** Issuing a version clears away what restores left. */
  lemma {:induction false} IssueClears(b: Barrier, v: nat, servers: seq<nat>)
    requires Sturdy(b)
    ensures AfterIssue(b, v, servers) == AfterIssue(Pruned(b), v, servers)
  {
    var k, c := |b| - |Pruned(b)|, Pruned(b);
    var d := c + [Version(v, servers)];
    assert b + [Version(v, servers)] == Restored(k, d);
    assert d[0].waiting == [];
    LastEmptyBehind(k, d);
  }

  lemma {:induction false} RestoredUpdate(k: nat, c: Barrier, i: nat, e: Version)
    requires i < |c|
    ensures Restored(k, c)[k + i] == c[i] && Restored(k, c)[k + i := e] == Restored(k, c[i := e])
  {
  }

  lemma {:induction false} FindBehind(k: nat, c: Barrier, v: nat)
    requires k == 0 || v > 0
    ensures Find(Restored(k, c), v) == k + Find(c, v)
  {
    FindIs(Restored(k, c), v, k + Find(c, v));
  }

  lemma {:induction false} PrunedBehind(k: nat, d: Barrier)
    requires d != [] && d[0].waiting == []
    ensures Pruned(Restored(k, d)) == Pruned(d)
  {
    LastEmptyBehind(k, d);
  }

  lemma {:induction false} PassHitsBehind(k: nat, c: Barrier, b: Barrier, v: nat, sid: nat, i: nat, e: Version)
    requires i < |c| && c[i].number == v && b == Restored(k, c) && i == Find(c, v) && k + i == Find(b, v)
    requires e == Version(v, RemoveFrom(c[i].waiting, 0, sid)) && c[i := e][0].waiting == []
    ensures AfterPass(b, v, sid) == AfterPass(c, v, sid)
  {
    RestoredUpdate(k, c, i, e);
    PassHits(c, v, sid, i, e);
    PassHits(b, v, sid, k + i, e);
    PrunedBehind(k, c[i := e]);
  }

  lemma {:induction false} PassBehind(k: nat, c: Barrier, v: nat, sid: nat)
    requires Shaped(c) && (k == 0 || v > 0)
    ensures AfterPass(Restored(k, c), v, sid) == if Holds(c, v) then AfterPass(c, v, sid) else Restored(k, c)
  {
    var i := Find(c, v);
    FindBehind(k, c, v);
    if i < |c| && c[i].number == v {
      var e := Version(v, RemoveFrom(c[i].waiting, 0, sid));
      NobodyLeft(c[0].waiting, sid);
      PassHitsBehind(k, c, Restored(k, c), v, sid, i, e);
    } else {
      PassMisses(Restored(k, c), v, sid, k + i);
    }
  }

  /** Passing a version that nobody waits for, in front, only prunes. */
  lemma {:induction false} PassFront(b: Barrier, sid: nat)
    requires b != [] && b[0].waiting == []
    ensures AfterPass(b, b[0].number, sid) == Pruned(b)
  {
    FindIs(b, b[0].number, 0);
    assert RemoveFrom(b[0].waiting, 0, sid) == [];
    assert b[0 := b[0]] == b;
  }

  lemma {:induction false} PassZero(k: nat, c: Barrier, sid: nat)
    requires Shaped(c)
    ensures AfterPass(c, 0, sid) == c
    ensures k > 0 ==> AfterPass(Restored(k, c), 0, sid) == c
  {
    if Min(c) == 0 {
      PassFront(c, sid);
      PrunedIdle(c);
    } else {
      FindIs(c, 0, 0);
    }
    if k > 0 {
      PassFront(Restored(k, c), sid);
      RestoredSturdy(k, c);
    }
  }

  lemma {:induction false} PassPrunes(c: Barrier, v: nat, sid: nat)
    requires Shaped(c)
    ensures Pruned(AfterPass(c, v, sid)) == AfterPass(c, v, sid) && Sturdy(AfterPass(c, v, sid))
  {
    PassShape(c, v, sid);
    RestoredSturdy(0, AfterPass(c, v, sid));
    RestoredNone(AfterPass(c, v, sid));
  }

  lemma {:induction false} RestoredNone(b: Barrier)
    ensures Restored(0, b) == b
  {
  }

  lemma {:induction false} PassAlike(b: Barrier, k: nat, c: Barrier, v: nat, sid: nat)
    requires Shaped(c) && b == Restored(k, c)
    ensures AfterPass(b, v, sid) == AfterPass(c, v, sid) || (AfterPass(b, v, sid) == b && AfterPass(c, v, sid) == c)
  {
    if k == 0 || v > 0 {
      PassBehind(k, c, v, sid);
    } else {
      PassZero(k, c, sid);
    }
  }

  /** Passing a version either clears it away too, or finds nothing to pass either way. */
  lemma {:induction false} PassClears(b: Barrier, v: nat, sid: nat)
    requires Sturdy(b)
    ensures var r := AfterPass(b, v, sid);
            Sturdy(r) && Pruned(r) == AfterPass(Pruned(b), v, sid) && (r == AfterPass(Pruned(b), v, sid) || r == b)
  {
    PassPrunes(Pruned(b), v, sid);
    PassAlike(b, |b| - |Pruned(b)|, Pruned(b), v, sid);
  }

  // ---------------------------------------------------------------------------------------------
  // The barrier as the program keeps it
  // ---------------------------------------------------------------------------------------------

  class ServerBarrier {
    var versions: Barrier

    constructor ()
      ensures versions == Start
    {
      versions := [Version(0, [])];
    }

    method MinVersion() returns (v: nat)
      requires versions != []
      ensures v == Min(versions)
    {
      v := versions[0].number;
    }

    method NewVersion(version: nat, servers: seq<nat>)
      requires versions != [] && version > 0 && versions[|versions| - 1].number < version
      modifies this
      ensures versions == AfterIssue(old(versions), version, servers)
    {
      versions := versions + [Version(version, servers)];
      MaybeClearPrefix();
    }

    method Pass(version: nat, sid: nat)
      modifies this
      ensures versions == AfterPass(old(versions), version, sid)
    {
      ghost var b := versions;
      var it := 0;
      while it != |versions|
        invariant it <= |versions| && versions == b
        invariant forall j :: 0 <= j < it ==> b[j].number < version
      {
        if versions[it].number < version {
          it := it + 1;
          continue;
        } else if versions[it].number > version {
          break;
        }
        FindIs(b, version, it);
        var waiting, i := versions[it].waiting, 0;
        while i < |waiting|
          invariant i <= |waiting| && RemoveFrom(waiting, i, sid) == RemoveFrom(b[it].waiting, 0, sid)
          decreases |waiting| - i
        {
          if waiting[i] == sid {
            waiting := waiting[i := waiting[|waiting| - 1]];
            waiting := waiting[..|waiting| - 1];
          } else {
            i := i + 1;
          }
        }
        versions := versions[it := Version(version, waiting)];
        MaybeClearPrefix();
        return;
      }
      FindIs(b, version, it);
    }

    method MaybeClearPrefix()
      modifies this
      ensures versions == Pruned(old(versions))
    {
      ghost var b := versions;
      var lastEmpty: nat, it: nat := |versions|, 0;
      while it != |versions|
        invariant it <= |versions| && versions == b
        invariant lastEmpty == |b| || (lastEmpty < it && b[lastEmpty].waiting == [])
        invariant forall j :: 0 <= j < it && (lastEmpty == |b| || lastEmpty < j) ==> b[j].waiting != []
      {
        if |versions[it].waiting| == 0 {
          lastEmpty := it;
        }
        it := it + 1;
      }
      LastEmptyIs(b, lastEmpty);
      if lastEmpty != |versions| {
        var begin := 0;
        while begin != lastEmpty
          invariant begin <= lastEmpty < |b| && versions == b[begin..]
        {
          versions := versions[1..];
          begin := begin + 1;
        }
      }
    }
  }

  lemma {:induction false} FindIs(b: Barrier, v: nat, i: nat)
    requires i <= |b| && (forall j :: 0 <= j < i ==> b[j].number < v) && (i < |b| ==> v <= b[i].number)
    ensures Find(b, v) == i
  {
  }

  lemma {:induction false} LastEmptyIs(b: Barrier, k: nat)
    requires k <= |b| && (k < |b| ==> b[k].waiting == [])
    requires forall j :: 0 <= j < |b| && (k == |b| || k < j) ==> b[j].waiting != []
    ensures LastEmpty(b) == k
  {
  }
}
